# Decision logic of the TTS e-mail responder

`ajh_tts_email.py` polls an IMAP inbox for unseen messages whose subject
contains `TTS`. For each message it:

- extracts the plain-text body;
- rejects empty bodies and bodies over 2000 characters;
- sends the body to a moderation service, unless the moderation flags or a
  `NO_MODERATION` token in the subject say not to;
- picks a voice from the subject;
- has a speech service synthesise the text;
- mails the audio back to the sender;
- flags the message `\Seen`.

This project models that decision logic in Dafny and proves what the code
promises about it. The external services (IMAP, the moderation and speech
services, SMTP) are not called. Their replies are inputs.

Modules, one per part of the script:

- `Wrappers`: `Option`.
- `Text`: `str.lower`, `str.upper` and the substring test `in`, with their
  laws.
- `Voice`: `extract_voice_model`. The six voice models are an enumeration;
  `Name` gives the name the speech service knows each one by.
- `Body`: `extract_email_body`, over an abstract MIME message. The message is
  its parts in walk order, each with a content type and the outcome of
  decoding its payload.
- `Moderation`:
  - the flags `FORCE_MODERATION` and `DISABLE_MODERATION` as read from the
    environment;
  - the per-message moderation decision;
  - `is_content_safe`.
- `Pipeline`: the body of the `for` loop of `check_email` for one message.
  - `Respond` is the control flow of the loop body. Given the three
    decisions for a fetched message (its body, whether it must be moderated,
    its voice), it gives the outcome and the ordered trace of calls: moderate,
    synthesise, send, mark `\Seen`.
  - `HandleMessage` applies `Respond` to the message's own decisions, or
    raises when the fetch failed.
  - The lemmas about `Respond` hold for every value of the decisions, and so
    for the decisions `HandleMessage` supplies. They state which calls are
    reached and when a message is marked.
- `Cycle`: the whole loop.
  - `Fold`, the specification, handles search hits in order until an
    exception leaves the loop.
  - The class `Mailbox` holds the set of `\Seen` ids.
  - The method `CheckEmail` walks the hits with a `while` loop and updates
    the mailbox in place. `Advance` is one turn of that loop, and
    `ProcessMessage` is its body as in the script.
  - All three methods are proved against `Fold`, or against `HandleMessage`
    for `ProcessMessage`.

Where the code and the documented intent differ, the model follows the code:

- **Failed sends still mark the message.** `send_email` catches every
  exception itself (lines 218-219), so a reply the transport fails to deliver
  still gets the message flagged `\Seen` at line 115. It is never retried.
- **Exceptions end the whole scan.** Nothing in the loop catches an exception
  per message. A failed fetch, or a flag store that raises, leaves the loop.
  The exception is caught at line 120, and the scan ends: later hits are not
  handled.
- **A refused flag is ignored.** Line 115 ignores the reply to the flag
  store, and `imaplib` raises only on a `BAD` reply. When the server answers
  `NO`, the loop goes on to the next hit. The message stays unseen, so the
  next scan answers it again. The model gives this case its own outcome,
  `Unflagged`.
- **An empty result list from the moderation service is unsafe.** The index
  `results[0]` raises, and the exception makes `is_content_safe` return
  `False`.

## Model

| member | source | states |
|---|---|---|
| Text.Lower | ajh_tts_email.py:145 | Lower-casing keeps the length and maps each character to its lower-case form. |
| Text.Upper | ajh_tts_email.py:108 | Upper-casing keeps the length and maps each character to its upper-case form. |
| Text.ContainsIffOccurs | ajh_tts_email.py:145 | The substring test holds exactly when the token occurs as a slice at some position, in both directions. |
| Text.LowerOfUpper | ajh_tts_email.py:145 | Lower-casing an upper-cased string gives its lower-case form. |
| Text.UpperOfLower | ajh_tts_email.py:108 | Upper-casing a lower-cased string gives its upper-case form. |
| Text.AbsentCharExcludes | ajh_tts_email.py:108 | A token containing a character that the text lacks is not a substring of the text. |
| Voice.FirstVoice | ajh_tts_email.py:144-147 | The loop returns the default or a voice of the list whose name occurs in the text. |
| Voice.ExtractVoiceModel | ajh_tts_email.py:141-147 | The voice chosen for a subject is `onyx` or a voice whose name occurs in the lower-cased subject. |
| Voice.FirstVoiceIsEarliest | ajh_tts_email.py:144-147 | When no earlier voice's name occurs, the first voice whose name occurs is returned. When no name occurs, the default is returned. |
| Voice.EarliestVoiceWins | ajh_tts_email.py:144-146 | A voice whose name occurs, with no earlier voice's name occurring, is the one chosen. |
| Voice.NoVoiceGivesDefault | ajh_tts_email.py:147 | A subject that names no voice gets `onyx`. |
| Voice.VoiceIgnoresCase | ajh_tts_email.py:145 | An upper-cased subject selects the same voice: the choice ignores case. |
| Voice.EchoBeatsNova | ajh_tts_email.py:143-146 | A subject naming both `echo` and `nova`, but not `alloy`, gets `echo`. |
| Body.DecodedText | ajh_tts_email.py:134-138 | A payload that decodes yields its text. A decode failure yields `None`. |
| Body.FirstPlainIndex | ajh_tts_email.py:132-133 | The walk finds the first `text/plain` part, or reports that there is none. |
| Body.ExtractEmailBody | ajh_tts_email.py:135-136 | A single-part message yields its decoded payload, whatever its content type. |
| Body.BodyIsFirstPlainPart | ajh_tts_email.py:131-139 | A multipart message yields the decoded payload of its first `text/plain` part. It yields `None` when that part fails to decode, and `None` when there is no such part. |
| Body.DecodeFailureStopsSearch | ajh_tts_email.py:132-139 | When the first `text/plain` part fails to decode, the result is `None` even if a later `text/plain` part would decode. |
| Moderation.ParseForceModeration | ajh_tts_email.py:59 | An unset variable means on. A set variable means on exactly when it spells `true` in any case. |
| Moderation.ParseDisableModeration | ajh_tts_email.py:60 | As written, the flag is on when the variable is unset or spells `false`, and off when it spells `true`. |
| Moderation.ParseDisableModerationIntended | ajh_tts_email.py:60 | The intended reading: off when the variable is unset, on exactly when it spells `true`. |
| Moderation.ConfigFromEnv | ajh_tts_email.py:59-60 | The start-up configuration holds the two flags parsed from their variables. |
| Moderation.ModerationRequired | ajh_tts_email.py:108 | Never when moderation is disabled. Always when it is forced and not disabled. Otherwise exactly when the upper-cased subject lacks `NO_MODERATION`. |
| Moderation.OverrideIgnoresCase | ajh_tts_email.py:108 | Lower-casing the subject does not change the decision, so the token is recognised in any case. |
| Moderation.PlainSubjectIsModerated | ajh_tts_email.py:108 | If moderation is not disabled, a subject with no underscore is always moderated, because it cannot carry the token. |
| Moderation.ForceFlagIgnoresCase | ajh_tts_email.py:59 | The force flag reads the same whatever the case of the variable's value. |
| Moderation.UnsetEnvironmentSkipsModeration | ajh_tts_email.py:59-60 | As written, with neither variable set, no subject is moderated. |
| Moderation.DisableFlagInverted | ajh_tts_email.py:60 | The as-written and intended readings never both disable, and they disagree on an unset variable. |
| Moderation.IntendedDefaultModeratesAll | ajh_tts_email.py:59-60 | With the intended reading and neither variable set, every subject is moderated. |
| Moderation.IsContentSafe | ajh_tts_email.py:149-160 | Safe exactly when the call succeeded and its first result is not flagged. A flagged result, a failed call and an empty result list are all unsafe, so the check fails closed. |
| Pipeline.TraceShape | ajh_tts_email.py:108-117 | For a body that passed the gate, each path (unsafe, synthesis failed, flag refused, store raised, processed) gives the matching prefix of the full call sequence. |
| Pipeline.CallStages | ajh_tts_email.py:108-115 | The full call sequence has one call per stage in stage order. Its last three calls are synthesis, the reply and the message's own mark. |
| Pipeline.TraceInStageOrder | ajh_tts_email.py:108-117 | The calls come in stage order (moderate, synthesise, send, mark), each at most once. The message's own mark is among them exactly when it ends `Processed`. |
| Pipeline.MarkIsLastCall | ajh_tts_email.py:113-115 | Any mark is for the message's own id. It is the last call, right after the reply, which comes right after synthesis. |
| Pipeline.GateStopsEverything | ajh_tts_email.py:100-106 | A missing, empty or over-long body makes no call. It ends `NoBody` or `TooLong`, as the case may be. |
| Pipeline.ModerationCalledIffRequired | ajh_tts_email.py:108-110 | The moderation service is called exactly when the body passed the gate and the gate requires moderation. |
| Pipeline.SynthesisOnlyWhenAllowed | ajh_tts_email.py:110-119 | Synthesis is reached exactly when the body passed the gate and moderation was not required or the content is safe. The outcome is `Unsafe` exactly in the remaining gated case. |
| Pipeline.SendOnlyAfterAudio | ajh_tts_email.py:112-117 | The reply is sent exactly when synthesis was called and saved the audio. The outcome is `SynthesisFailed` exactly when synthesis was called and failed. |
| Pipeline.MarkedExactlyWhenSent | ajh_tts_email.py:113-115 | The message ends `Processed` exactly when the reply was sent and the server sets the flag. After a sent reply, a refused flag ends `Unflagged` and a raising store ends `StoreRaised`, each exactly in its own case. The outcome keeps whether the reply was delivered. |
| Pipeline.RefusedFlagLeavesUnseen | ajh_tts_email.py:115 | A flag the server refuses does not end the loop and leaves no `\Seen` mark. |
| Pipeline.FailedSendStillMarked | ajh_tts_email.py:113-115 | A reply the transport fails to deliver is still followed by the `\Seen` mark, and the outcome is `Processed(false)`. |
| Pipeline.FailedSynthesisLeavesUnseen | ajh_tts_email.py:112-117 | A failed synthesis sends nothing and does not mark the message. |
| Pipeline.CallArguments | ajh_tts_email.py:108-114 | Moderation and synthesis get the extracted body. Synthesis gets the chosen voice. The reply goes to the sender under the original subject. |
| Pipeline.AnswerableIsAnswered | ajh_tts_email.py:100-115 | A fetched message ends `Processed(true)` when its body passes the gate, moderation either is not required or finds it safe, and synthesis, delivery and the flag store all succeed. |
| Pipeline.SynthesisUsesSubjectVoice | ajh_tts_email.py:100-112 | For a fetched message, synthesis is asked for the extracted body in the voice its subject selects. Moderation is called exactly when the body passes the gate and the flags and subject require it. |
| Cycle.Steps | ajh_tts_email.py:93 | There is one step per search hit. |
| Cycle.StepAt | ajh_tts_email.py:93-119 | Step `k` is hit `k`'s id together with that hit's handling. |
| Cycle.Fold | ajh_tts_email.py:93-121 | One outcome per handled hit, in search order. The scan aborts exactly when the last handled hit raised. No earlier hit raised. |
| Cycle.MarkedAreProcessed | ajh_tts_email.py:93-115 | The ids flagged by a scan are exactly those of handled hits that ended `Processed`. |
| Cycle.StopsAtEscape | ajh_tts_email.py:93-121 | Once a hit has raised, the remaining hits change nothing. |
| Cycle.StepsMarkLast | ajh_tts_email.py:113-115 | Every hit's handling marks only its own id, as its last call, right after send and synthesis, and exactly when it ends `Processed`. |
| Cycle.MarkFollowsSend | ajh_tts_email.py:113-115 | In the trace of a whole scan, every mark directly follows a send, which directly follows a synthesis. The flagged ids are exactly the ids marked in the trace. |
| Cycle.ScanMarksFollowSends | ajh_tts_email.py:93-115 | In the trace of every scan, each `\Seen` mark directly follows a reply, which directly follows a synthesis. |
| Cycle.FoldAdvance | ajh_tts_email.py:93-119 | Handling one more hit appends its outcome and calls, adds its id to the flagged set when it ends `Processed`, and aborts exactly when it raised. |
| Cycle.RunCycleAsWritten | ajh_tts_email.py:79-126 | As the file stands, whatever the mailbox holds, the scan handles nothing, calls nothing and flags nothing. |
| Cycle.AnswerableHitIsAnswered | ajh_tts_email.py:100-115 | Under every moderation setting, the literal hit `AnswerableHit(id)` ends `Processed(true)`. That hit has subject `TTS`, body `hello`, an unflagged moderation result and working services. |
| Cycle.RefusedHitIsUnflagged | ajh_tts_email.py:113-115 | Under every moderation setting, the same hit with its flag refused ends `Unflagged(true)`, with no `\Seen` mark. |
| Cycle.RefusedFlagKeepsScanning | ajh_tts_email.py:93-115 | A hit with a refused flag, followed by an answerable hit: the scan does not abort, the second hit is answered and flagged, and only the second is flagged. |
| Cycle.MissingImportsLoseEveryMessage | ajh_tts_email.py:29-41 | An answerable hit is flagged by the intended scan under every moderation setting, and is flagged by nothing as written. |
| Cycle.Mailbox.Store | ajh_tts_email.py:115 | Setting `\Seen` adds the id to the mailbox's flagged set when the server sets the flag. A refused or raising store changes nothing. |
| Cycle.ProcessMessage | ajh_tts_email.py:94-119 | One iteration makes exactly the calls and reaches exactly the outcome that `HandleMessage` gives. It adds the hit's id to the mailbox exactly when the outcome is `Processed`. |
| Cycle.Advance | ajh_tts_email.py:93-119 | One turn of the loop extends the outcomes, the trace and the mailbox's flags by exactly what `Fold` records for the hit, and reports whether it raised. |
| Cycle.CheckEmail | ajh_tts_email.py:79-121 | The outcomes, the trace and the ids added to the mailbox are those of the specification `RunCycle`. |

## Left out

- IMAP connect, login, select, search and logout, and the SMTP session, are network I/O. The connection and the search become the `Scan` input: its hits, or `ScanFailed`. A fetch becomes the message or a failure. The flag store becomes the set of `Mailbox`.
- The moderation and speech services are foreign calls. Their replies are inputs: `ModerationReply`, `SynthesisReply`.
- The reply transport is a foreign call too. Its reply, `SendReply`, is an input.
- Writing `speech.mp3` and reading it back for the attachment is file I/O.
- MIME parsing, UTF-8 decoding and base64 encoding are library code. A message is the parts `walk()` yields, each with a content type and a decode outcome.
- The HTML reply template is fixed text with no decisions in it.
- Module-import-time plumbing is left out: `.env` loading, logging, the check for missing credentials and `exit(1)`, and the integer parsing of the port variables.
- The `argparse` switch and the `--loop` mode are left out, including the `sleep(60)` between scans and the handling of `KeyboardInterrupt`. They are process plumbing and timing. One call of `check_email` is modelled.
- The server may flag a message `\Seen` when it is fetched in `RFC822` mode. That happens outside this code and is not modelled.
- Cycle.CheckEmail: a message without a `Subject` header is not modelled. The search `SUBJECT "TTS"` only returns messages that have one. Other exceptions inside the loop, such as a malformed fetch reply, are folded into the fetch failure.
- Text.Lower: only ASCII letters are mapped. Python's full Unicode case mapping is not modelled, and that includes multi-character mappings such as `ß` to `SS`.
- Text.Upper: only ASCII letters are mapped, for the same reason.
- Cycle.RunCycleAsWritten: the failing `logout` in `finally` is only logged, so it is not modelled separately. The same goes for `send_email` failing under the missing `smtplib` import, which is caught at lines 218-219. That failure would make every send fail silently, but the earlier `NameError` already hides it.
- There are no concrete end-to-end scenarios over literal messages, apart from `Cycle.MissingImportsLoseEveryMessage`. The scenario properties are stated for all subjects and messages instead (`Voice.EchoBeatsNova`, `Pipeline.GateStopsEverything`, `Pipeline.FailedSendStillMarked`).

## Findings

| source | as written | input that shows it | evidently intended | confidence | as-written member | corrected member |
|---|---|---|---|---|---|---|
| ajh_tts_email.py:60 | `DISABLE_MODERATION` is on when the variable is unset or spells `false`, and off when it spells `true`. | An environment that sets neither variable: no message is ever moderated. | The flag is on only when the variable spells `true`, so by default every message is moderated (`FORCE_MODERATION` defaults to `true`). | high; not executed | Moderation.ParseDisableModeration | Moderation.ParseDisableModerationIntended |
| ajh_tts_email.py:29-41 | `imaplib` and the module name `email` are never imported. Line 82 raises `NameError`, which is caught at line 120, and the scan ends before the search. | The mailbox holding one unseen `TTS` message with a plain body (`Cycle.AnswerableHit("1")`): as written it is never answered or flagged. | With the imports present, the scan handles every hit and flags the answered ones. | high; not executed | Cycle.RunCycleAsWritten | Cycle.CheckEmail |

How the two findings fit into the rest of the model:

- The first finding: `Moderation.DisableFlagInverted` and `Moderation.UnsetEnvironmentSkipsModeration` show the as-written parse. `Moderation.IntendedDefaultModeratesAll` proves the intended property. The pipeline, the cycle and all of their lemmas take the two flags as a `Config` value, so they hold under either reading.
- The second finding: `Cycle.MissingImportsLoseEveryMessage` shows it. `Cycle.CheckEmail` and `Cycle.RunCycle` model the scan with the imports in place.
