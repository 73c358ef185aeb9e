/** The voice selector `extract_voice_model`: the first of six fixed voice
    models whose name occurs in the lower-cased subject, `onyx` otherwise. */
module Voice {
  import opened Text

  /** The six voice models of the speech service. */
  datatype VoiceModel = Alloy | Echo | Fable | Onyx | Nova | Shimmer

  /** The name the speech service knows each voice model by. */
  function Name(v: VoiceModel): string
  {
    match v
    case Alloy => "alloy"
    case Echo => "echo"
    case Fable => "fable"
    case Onyx => "onyx"
    case Nova => "nova"
    case Shimmer => "shimmer"
  }

  /** The voices in the order the selector tries them. */
  const Voices: seq<VoiceModel> := [Alloy, Echo, Fable, Onyx, Nova, Shimmer]

  /** The voice used when the subject names none. */
  const DefaultVoice: VoiceModel := Onyx

  /** The `for` loop with its early `return`: the first of `voices` whose name
      occurs in `lowered`, and `onyx` once the list is exhausted. */
  function FirstVoice(voices: seq<VoiceModel>, lowered: string): (voice: VoiceModel)
    ensures voice == DefaultVoice || (voice in voices && Contains(lowered, Name(voice)))
  {
    if voices == [] then DefaultVoice
    else if Contains(lowered, Name(voices[0])) then voices[0]
    else FirstVoice(voices[1..], lowered)
  }

  /** The voice for a subject line: either the default or a voice whose name
      occurs in the lower-cased subject. Which one is stated by
      `EarliestVoiceWins` and `NoVoiceGivesDefault`. */
  function ExtractVoiceModel(subject: string): (voice: VoiceModel)
    ensures voice == DefaultVoice || Contains(Lower(subject), Name(voice))
  {
    FirstVoice(Voices, Lower(subject))
  }

  /** The search returns the first voice of the list whose name occurs, and
      the default when none does. */
  lemma {:induction false} FirstVoiceIsEarliest(voices: seq<VoiceModel>, lowered: string, i: nat)
    requires i <= |voices|
    requires forall j :: 0 <= j < i ==> !Contains(lowered, Name(voices[j]))
    ensures i < |voices| && Contains(lowered, Name(voices[i])) ==> FirstVoice(voices, lowered) == voices[i]
    ensures i == |voices| ==> FirstVoice(voices, lowered) == DefaultVoice
    decreases i
  {
    if i > 0 {
      assert !Contains(lowered, Name(voices[0]));
      FirstVoiceIsEarliest(voices[1..], lowered, i - 1);
    }
  }

  /** The choice ignores the case of the subject: an upper-cased subject
      selects the same voice. */
  lemma VoiceIgnoresCase(subject: string)
    ensures ExtractVoiceModel(Upper(subject)) == ExtractVoiceModel(subject)
  {
    LowerOfUpper(subject);
  }

  /** The voice at position `i` is chosen as soon as its name occurs in the
      lower-cased subject and no earlier voice's name does. */
  lemma EarliestVoiceWins(subject: string, i: nat)
    requires i < |Voices| && Contains(Lower(subject), Name(Voices[i]))
    requires forall j :: 0 <= j < i ==> !Contains(Lower(subject), Name(Voices[j]))
    ensures ExtractVoiceModel(subject) == Voices[i]
  {
    FirstVoiceIsEarliest(Voices, Lower(subject), i);
  }

  /** A subject that names none of the voices gets `onyx`. */
  lemma NoVoiceGivesDefault(subject: string)
    requires forall j :: 0 <= j < |Voices| ==> !Contains(Lower(subject), Name(Voices[j]))
    ensures ExtractVoiceModel(subject) == DefaultVoice
  {
    FirstVoiceIsEarliest(Voices, Lower(subject), |Voices|);
  }

  /** A subject that names both `echo` and `nova` (and not `alloy`, which
      comes before `echo`) gets `echo`, the earlier of the two. */
  lemma EchoBeatsNova(subject: string)
    requires Contains(Lower(subject), "echo") && Contains(Lower(subject), "nova")
    requires !Contains(Lower(subject), "alloy")
    ensures ExtractVoiceModel(subject) == Echo
  {
    assert Name(Voices[0]) == "alloy" && Name(Voices[1]) == "echo";
    EarliestVoiceWins(subject, 1);
  }
}
