/** The handling of one search hit inside the loop of `check_email`: the
    message is fetched, its body extracted and gated, possibly moderated,
    voiced, synthesised, answered and finally flagged `\Seen`. The external
    services are replaced by the replies they give, which are inputs here. */
module Pipeline {
  import opened Wrappers
  import opened Text
  import opened Voice
  import opened Body
  import opened Moderation

  /** `MAX_CHARACTER_COUNT`: the longest body that is processed. */
  const MaxCharacterCount: nat := 2000

  /** The identifier the mailbox search returns for a message. */
  type MessageId = string

  /** A fetched message: its `From` and `Subject` headers and its MIME body. */
  datatype Mail = Mail(sender: string, subject: string, content: MimeMessage)

  /** The speech service either saved the audio file or raised. */
  datatype SynthesisReply = AudioSaved | SynthesisError

  /** The mail transport either delivered the reply or raised. */
  datatype SendReply = Delivered | TransportError

  /** What each external service answers for one message. */
  datatype Oracles = Oracles(moderation: ModerationReply, synthesis: SynthesisReply, send: SendReply)

  /** The server's answer to setting `\Seen`: it sets the flag (`OK`), it
      refuses (`NO`, which `imaplib` returns without raising and the loop
      ignores), or the call raises (a `BAD` reply or a broken connection). */
  datatype StoreReply = Stored | StoreRefused | StoreError

  /** One search hit: its id, the fetched message (`None` when the fetch
      raised), the service replies, and the answer to setting `\Seen`. */
  datatype Item = Item(id: MessageId, fetched: Option<Mail>, oracles: Oracles, store: StoreReply)

  /** The observable calls, in the order they are made. `MarkSeen` is a
      `\Seen` flag the server actually sets; a store it refuses or that
      raises leaves no mark. */
  datatype Event =
    | Moderate(text: string)
    | Synthesize(text: string, voice: VoiceModel)
    | Send(to: string, subject: string, delivered: bool)
    | MarkSeen(id: MessageId)

  /** How the handling of one message ended. `Unflagged` is a reply sent
      whose `\Seen` flag the server refused: the loop goes on and the message
      stays unseen. `FetchRaised` and `StoreRaised` are exceptions that leave
      the loop and end the whole scan. */
  datatype Outcome =
    | NoBody
    | TooLong
    | Unsafe
    | SynthesisFailed
    | Processed(delivered: bool)
    | Unflagged(delivered: bool)
    | FetchRaised
    | StoreRaised

  predicate Escapes(o: Outcome)
  {
    o.FetchRaised? || o.StoreRaised?
  }

  datatype Handled = Handled(outcome: Outcome, events: seq<Event>)

  /** A body passes the gates of the loop: `if email_body:` (neither `None`
      nor empty) and the length limit. */
  predicate Admissible(body: Option<string>)
  {
    body.Some? && body.value != "" && |body.value| <= MaxCharacterCount
  }

  predicate ModerationCalled(events: seq<Event>)
  {
    exists e :: e in events && e.Moderate?
  }

  predicate SynthesisCalled(events: seq<Event>)
  {
    exists e :: e in events && e.Synthesize?
  }

  predicate SendCalled(events: seq<Event>)
  {
    exists e :: e in events && e.Send?
  }

  /** The position of a call in the fixed order moderate, synthesise, send, mark. */
  function Stage(e: Event): nat
  {
    match e
    case Moderate(_) => 0
    case Synthesize(_, _) => 1
    case Send(_, _, _) => 2
    case MarkSeen(_) => 3
  }

  /** Every call comes after the calls of earlier stages, and none repeats. */
  predicate InStageOrder(events: seq<Event>)
  {
    forall i, j :: 0 <= i < j < |events| ==> Stage(events[i]) < Stage(events[j])
  }

  /** What the three pure steps decide about a fetched message: the
      extracted body, whether the gate sends it to moderation, and the voice
      its subject selects. */
  datatype Decisions = Decisions(body: Option<string>, required: bool, voice: VoiceModel)

  /** The decisions for a fetched message under the moderation flags. */
  function DecisionsOf(cfg: Config, mail: Mail): Decisions
  {
    Decisions(ExtractEmailBody(mail.content), ModerationRequired(cfg, mail.subject), ExtractVoiceModel(mail.subject))
  }

  /** The body of the `for` loop of `check_email` for a fetched message,
      given its decisions: the gates on the body, then moderation when
      required, synthesis, the reply and the `\Seen` flag, with the calls it
      makes in order and how it ends. (The voice is chosen only after
      moderation in the script; choosing it is pure, so the order does not
      show.) */
  function Respond(item: Item, mail: Mail, d: Decisions): Handled
  {
    if d.body.None? || d.body.value == "" then Handled(NoBody, [])
    else if |d.body.value| > MaxCharacterCount then Handled(TooLong, [])
    else
      var text := d.body.value;
      var checked := if d.required then [Moderate(text)] else [];
      if d.required && !IsContentSafe(item.oracles.moderation) then Handled(Unsafe, checked)
      else
        var voiced := checked + [Synthesize(text, d.voice)];
        if item.oracles.synthesis.SynthesisError? then Handled(SynthesisFailed, voiced)
        else
          var delivered := item.oracles.send.Delivered?;
          var sent := voiced + [Send(mail.sender, mail.subject, delivered)];
          if item.store.Stored? then Handled(Processed(delivered), sent + [MarkSeen(item.id)])
          else if item.store.StoreRefused? then Handled(Unflagged(delivered), sent)
          else Handled(StoreRaised, sent)
  }

  /** One iteration of the loop: a fetch that raises ends it before any
      call; otherwise the message is handled with its own decisions. */
  function HandleMessage(cfg: Config, item: Item): Handled
  {
    match item.fetched
    case None => Handled(FetchRaised, [])
    case Some(mail) => Respond(item, mail, DecisionsOf(cfg, mail))
  }

  /** The calls made for a message whose body passed the gate, as far as
      the branch taken: `Calls(item, mail, d)[..n]` for the path's `n`. */
  function Calls(item: Item, mail: Mail, d: Decisions): seq<Event>
    requires Admissible(d.body)
  {
    (if d.required then [Moderate(d.body.value)] else []) +
    [Synthesize(d.body.value, d.voice),
     Send(mail.sender, mail.subject, item.oracles.send.Delivered?),
     MarkSeen(item.id)]
  }

  /** The trace and outcome of each path through the loop body once the body
      passed the gate. */
  lemma TraceShape(item: Item, mail: Mail, d: Decisions)
    requires Admissible(d.body)
    ensures var h := Respond(item, mail, d);
            var c := Calls(item, mail, d);
            var m := if d.required then 1 else 0;
            && |c| == m + 3
            && (if d.required && !IsContentSafe(item.oracles.moderation) then
                  h == Handled(Unsafe, c[..m])
                else if item.oracles.synthesis.SynthesisError? then
                  h == Handled(SynthesisFailed, c[..m + 1])
                else if item.store.StoreRefused? then
                  h == Handled(Unflagged(item.oracles.send.Delivered?), c[..m + 2])
                else if item.store.StoreError? then
                  h == Handled(StoreRaised, c[..m + 2])
                else
                  h == Handled(Processed(item.oracles.send.Delivered?), c))
  {
    var text := d.body.value;
    var checked := if d.required then [Moderate(text)] else [];
    var voiced := checked + [Synthesize(text, d.voice)];
    var sent := voiced + [Send(mail.sender, mail.subject, item.oracles.send.Delivered?)];
    var c := Calls(item, mail, d);
    var m := if d.required then 1 else 0;
    assert c == sent + [MarkSeen(item.id)];
    assert c[..m] == checked && c[..m + 1] == voiced && c[..m + 2] == sent;
  }

  /** The full call sequence has one call per stage, in stage order, and
      ends with the message's own mark right after the reply, which comes
      right after synthesis. */
  lemma CallStages(item: Item, mail: Mail, d: Decisions)
    requires Admissible(d.body)
    ensures var c := Calls(item, mail, d);
            var m := if d.required then 1 else 0;
            && |c| == m + 3
            && (forall k :: 0 <= k < |c| ==> Stage(c[k]) == k + 1 - m)
            && c[m].Synthesize? && c[m + 1].Send? && c[m + 2] == MarkSeen(item.id)
  {
    var c := Calls(item, mail, d);
    var synth := Synthesize(d.body.value, d.voice);
    var send := Send(mail.sender, mail.subject, item.oracles.send.Delivered?);
    if d.required {
      assert c == [Moderate(d.body.value), synth, send, MarkSeen(item.id)];
    } else {
      assert c == [synth, send, MarkSeen(item.id)];
    }
  }

  /** The calls of a message come in stage order, each at most once, and its
      own `\Seen` mark is among them exactly when it ends `Processed`. */
  lemma TraceInStageOrder(item: Item, mail: Mail, d: Decisions)
    ensures InStageOrder(Respond(item, mail, d).events)
    ensures MarkSeen(item.id) in Respond(item, mail, d).events <==> Respond(item, mail, d).outcome.Processed?
  {
    if Admissible(d.body) {
      TraceShape(item, mail, d);
      CallStages(item, mail, d);
      var c := Calls(item, mail, d);
      var m := if d.required then 1 else 0;
      var e := Respond(item, mail, d).events;
      assert e == c[..|e|];
      assert forall k :: 0 <= k < |e| ==> e[k] == c[k];
      if !Respond(item, mail, d).outcome.Processed? {
        assert |e| <= m + 2;
        assert Stage(MarkSeen(item.id)) == 3;
      }
    }
  }

  /** A `\Seen` mark in a message's calls is for its own id and nothing
      else, is the last call, and comes right after the reply, which comes
      right after synthesis. */
  lemma MarkIsLastCall(item: Item, mail: Mail, d: Decisions)
    ensures var e := Respond(item, mail, d).events;
            forall j :: 0 <= j < |e| && e[j].MarkSeen? ==>
              e[j] == MarkSeen(item.id) && j == |e| - 1 && 2 <= j && e[j - 1].Send? && e[j - 2].Synthesize?
  {
    if Admissible(d.body) {
      TraceShape(item, mail, d);
      CallStages(item, mail, d);
      var c := Calls(item, mail, d);
      var e := Respond(item, mail, d).events;
      assert e == c[..|e|];
      forall j | 0 <= j < |e| && e[j].MarkSeen?
        ensures e[j] == MarkSeen(item.id) && j == |e| - 1 && 2 <= j && e[j - 1].Send? && e[j - 2].Synthesize?
      {
        assert e[j] == c[j] && Stage(c[j]) == 3;
      }
    }
  }

  /** A body that is missing, empty or longer than `MaxCharacterCount` stops
      the message before any call: no moderation, synthesis, reply or mark. */
  lemma GateStopsEverything(item: Item, mail: Mail, d: Decisions)
    requires !Admissible(d.body)
    ensures Respond(item, mail, d).events == []
    ensures Respond(item, mail, d).outcome == if d.body.None? || d.body.value == "" then NoBody else TooLong
  {
  }

  /** The moderation service is called exactly when the body passed the gate
      and the gate requires moderation. */
  lemma ModerationCalledIffRequired(item: Item, mail: Mail, d: Decisions)
    ensures ModerationCalled(Respond(item, mail, d).events) <==> Admissible(d.body) && d.required
  {
    if Admissible(d.body) {
      TraceShape(item, mail, d);
      var c := Calls(item, mail, d);
      var e := Respond(item, mail, d).events;
      if d.required {
        assert c[0] in e;
      } else {
        forall ev | ev in e ensures !ev.Moderate? {
          var k :| 0 <= k < |e| && e[k] == ev;
          assert ev == c[k];
        }
      }
    }
  }

  /** Synthesis is reached exactly when the body passed the gate and either
      moderation is not required or the content was judged safe; a message
      judged unsafe ends as `Unsafe`. */
  lemma SynthesisOnlyWhenAllowed(item: Item, mail: Mail, d: Decisions)
    ensures SynthesisCalled(Respond(item, mail, d).events) <==>
              Admissible(d.body) && (!d.required || IsContentSafe(item.oracles.moderation))
    ensures Respond(item, mail, d).outcome.Unsafe? <==>
              Admissible(d.body) && d.required && !IsContentSafe(item.oracles.moderation)
  {
    if Admissible(d.body) {
      TraceShape(item, mail, d);
      var c := Calls(item, mail, d);
      var m := if d.required then 1 else 0;
      var e := Respond(item, mail, d).events;
      if d.required && !IsContentSafe(item.oracles.moderation) {
        assert e == [c[0]];
      } else {
        assert c[m] in e;
      }
    }
  }

  /** The reply is sent exactly when synthesis was called and saved the
      audio; a failed synthesis ends as `SynthesisFailed`. */
  lemma SendOnlyAfterAudio(item: Item, mail: Mail, d: Decisions)
    ensures SendCalled(Respond(item, mail, d).events) <==>
              SynthesisCalled(Respond(item, mail, d).events) && item.oracles.synthesis.AudioSaved?
    ensures Respond(item, mail, d).outcome.SynthesisFailed? <==>
              SynthesisCalled(Respond(item, mail, d).events) && item.oracles.synthesis.SynthesisError?
  {
    if Admissible(d.body) {
      TraceShape(item, mail, d);
      var c := Calls(item, mail, d);
      var m := if d.required then 1 else 0;
      var e := Respond(item, mail, d).events;
      if d.required && !IsContentSafe(item.oracles.moderation) {
        assert e == c[..m];
      } else if item.oracles.synthesis.SynthesisError? {
        assert e == c[..m] + [c[m]];
        assert c[m] in e;
      } else {
        assert c[m] in e && c[m + 1] in e;
      }
    }
  }

  /** The message is marked `\Seen` exactly when the reply was sent and the
      server sets the flag, whether or not the transport delivered the reply
      (`send_email` swallows its own errors). After a sent reply, a refused
      flag ends `Unflagged` and a raising store ends `StoreRaised`. */
  lemma MarkedExactlyWhenSent(item: Item, mail: Mail, d: Decisions)
    ensures Respond(item, mail, d).outcome.Processed? <==>
              SendCalled(Respond(item, mail, d).events) && item.store.Stored?
    ensures Respond(item, mail, d).outcome.Unflagged? <==>
              SendCalled(Respond(item, mail, d).events) && item.store.StoreRefused?
    ensures Respond(item, mail, d).outcome == StoreRaised <==>
              SendCalled(Respond(item, mail, d).events) && item.store.StoreError?
    ensures Respond(item, mail, d).outcome.Processed? || Respond(item, mail, d).outcome.Unflagged? ==>
              Respond(item, mail, d).outcome.delivered == item.oracles.send.Delivered?
  {
    if Admissible(d.body) {
      TraceShape(item, mail, d);
      var c := Calls(item, mail, d);
      var m := if d.required then 1 else 0;
      var e := Respond(item, mail, d).events;
      if d.required && !IsContentSafe(item.oracles.moderation) {
        assert e == c[..m];
      } else if item.oracles.synthesis.SynthesisError? {
        assert e == c[..m] + [c[m]];
      } else {
        assert c[m + 1] in e;
      }
    }
  }

  /** A reply the transport fails to deliver still gets the message marked
      `\Seen`, so it is not retried. */
  lemma FailedSendStillMarked(item: Item, mail: Mail, d: Decisions)
    requires Admissible(d.body) && (!d.required || IsContentSafe(item.oracles.moderation))
    requires item.oracles.synthesis.AudioSaved? && item.oracles.send.TransportError? && item.store.Stored?
    ensures Respond(item, mail, d).outcome == Processed(false)
    ensures Send(mail.sender, mail.subject, false) in Respond(item, mail, d).events
    ensures MarkSeen(item.id) in Respond(item, mail, d).events
  {
    TraceShape(item, mail, d);
    var c := Calls(item, mail, d);
    var m := if d.required then 1 else 0;
    assert c[m + 1] == Send(mail.sender, mail.subject, false) && c[m + 2] == MarkSeen(item.id);
  }

  /** A flag the server refuses does not end the loop and leaves the
      message unseen, so the next scan answers it again. */
  lemma RefusedFlagLeavesUnseen(item: Item, mail: Mail, d: Decisions)
    requires item.store.StoreRefused?
    ensures !Escapes(Respond(item, mail, d).outcome)
    ensures MarkSeen(item.id) !in Respond(item, mail, d).events
  {
    TraceInStageOrder(item, mail, d);
  }

  /** A failed synthesis leaves the message unseen and sends nothing. */
  lemma FailedSynthesisLeavesUnseen(item: Item, mail: Mail, d: Decisions)
    requires item.oracles.synthesis.SynthesisError?
    ensures !Respond(item, mail, d).outcome.Processed?
    ensures !SendCalled(Respond(item, mail, d).events)
    ensures MarkSeen(item.id) !in Respond(item, mail, d).events
  {
    SendOnlyAfterAudio(item, mail, d);
    TraceInStageOrder(item, mail, d);
  }

  /** The calls carry the message's own data: moderation and synthesis get
      the extracted body, synthesis gets the chosen voice, and the reply goes
      to the sender under the original subject. */
  lemma CallArguments(item: Item, mail: Mail, d: Decisions)
    ensures var e := Respond(item, mail, d).events;
            forall k :: 0 <= k < |e| && e[k].Moderate? ==> e[k].text == d.body.value
    ensures var e := Respond(item, mail, d).events;
            forall k :: 0 <= k < |e| && e[k].Synthesize? ==> e[k].text == d.body.value && e[k].voice == d.voice
    ensures var e := Respond(item, mail, d).events;
            forall k :: 0 <= k < |e| && e[k].Send? ==>
              e[k] == Send(mail.sender, mail.subject, item.oracles.send.Delivered?)
  {
    if Admissible(d.body) {
      TraceShape(item, mail, d);
      var e := Respond(item, mail, d).events;
      assert e == Calls(item, mail, d)[..|e|];
    }
  }

  /** For a fetched message, the speech service is asked for exactly the
      extracted body, in the voice its subject selects, and moderation is
      asked exactly when the gate requires it. */
  lemma SynthesisUsesSubjectVoice(cfg: Config, item: Item)
    requires item.fetched.Some?
    ensures var mail := item.fetched.value;
            var e := HandleMessage(cfg, item).events;
            forall k :: 0 <= k < |e| && e[k].Synthesize? ==>
              Some(e[k].text) == ExtractEmailBody(mail.content) && e[k].voice == ExtractVoiceModel(mail.subject)
    ensures var mail := item.fetched.value;
            ModerationCalled(HandleMessage(cfg, item).events) <==>
              Admissible(ExtractEmailBody(mail.content)) && ModerationRequired(cfg, mail.subject)
  {
    var mail := item.fetched.value;
    var d := DecisionsOf(cfg, mail);
    CallArguments(item, mail, d);
    SynthesisOnlyWhenAllowed(item, mail, d);
    ModerationCalledIffRequired(item, mail, d);
  }

  /** A fetched message whose body passes the gate, whose moderation (when
      the gate asks for it) finds it safe, and whose services all succeed is
      answered, delivered and flagged. */
  lemma AnswerableIsAnswered(cfg: Config, item: Item)
    requires item.fetched.Some? && Admissible(ExtractEmailBody(item.fetched.value.content))
    requires !ModerationRequired(cfg, item.fetched.value.subject) || IsContentSafe(item.oracles.moderation)
    requires item.oracles.synthesis.AudioSaved? && item.oracles.send.Delivered? && item.store.Stored?
    ensures HandleMessage(cfg, item).outcome == Processed(true)
  {
    TraceShape(item, item.fetched.value, DecisionsOf(cfg, item.fetched.value));
  }
}
