/** One call of `check_email`: the loop over the search hits, the mailbox's
    `\Seen` flags it sets, and the exceptions that end the scan early. */
module Cycle {
  import opened Wrappers
  import opened Voice
  import opened Body
  import opened Moderation
  import opened Pipeline

  /** One search hit together with what handling it does. */
  datatype Step = Step(id: MessageId, handled: Handled)

  /** What a scan has done so far: how each handled message ended, every
      call in order, the ids flagged `\Seen`, and whether an exception left
      the loop. */
  datatype Batch = Batch(outcomes: seq<Outcome>, events: seq<Event>, marked: set<MessageId>, aborted: bool)

  /** The handling of every search hit, in search order. */
  function Steps(cfg: Config, items: seq<Item>): (s: seq<Step>)
    ensures |s| == |items|
  {
    if items == [] then []
    else Steps(cfg, items[..|items| - 1]) + [Step(items[|items| - 1].id, HandleMessage(cfg, items[|items| - 1]))]
  }

  /** The step for hit `k` is that hit's id with its handling. */
  lemma {:induction false} StepAt(cfg: Config, items: seq<Item>, k: nat)
    requires k < |items|
    ensures Steps(cfg, items)[k] == Step(items[k].id, HandleMessage(cfg, items[k]))
    decreases |items|
  {
    if k < |items| - 1 {
      var prefix := items[..|items| - 1];
      StepAt(cfg, prefix, k);
      assert prefix[k] == items[k];
    }
  }

  /** The `for` loop over the search hits: each message in search order until
      one raises; that exception leaves the loop (it is caught outside it), so
      later messages are not touched. */
  function Fold(steps: seq<Step>): (b: Batch)
    decreases |steps|
    ensures |b.outcomes| <= |steps|
    ensures !b.aborted ==> |b.outcomes| == |steps|
    ensures forall k :: 0 <= k < |b.outcomes| ==> b.outcomes[k] == steps[k].handled.outcome
    ensures b.aborted <==> |b.outcomes| > 0 && Escapes(b.outcomes[|b.outcomes| - 1])
    ensures forall k :: 0 <= k < |b.outcomes| - 1 ==> !Escapes(b.outcomes[k])
  {
    if steps == [] then Batch([], [], {}, false)
    else
      var before := Fold(steps[..|steps| - 1]);
      if before.aborted then before
      else
        var last := steps[|steps| - 1];
        Batch(before.outcomes + [last.handled.outcome], before.events + last.handled.events,
              if last.handled.outcome.Processed? then before.marked + {last.id} else before.marked,
              Escapes(last.handled.outcome))
  }

  /** The scan of a list of search hits. */
  function RunBatch(cfg: Config, items: seq<Item>): Batch
  {
    Fold(Steps(cfg, items))
  }

  /** `id` is the id of a handled message that ended `Processed`. */
  ghost predicate ProcessedId(steps: seq<Step>, b: Batch, id: MessageId)
  {
    exists k :: 0 <= k < |b.outcomes| && k < |steps| && steps[k].id == id && b.outcomes[k].Processed?
  }

  /** The ids a scan flags `\Seen` are exactly those of the handled messages
      that ended `Processed`. */
  lemma {:induction false} MarkedAreProcessed(steps: seq<Step>)
    ensures forall id :: id in Fold(steps).marked <==> ProcessedId(steps, Fold(steps), id)
    decreases |steps|
  {
    if steps != [] {
      var prefix := steps[..|steps| - 1];
      var before := Fold(prefix);
      MarkedAreProcessed(prefix);
      if !before.aborted {
        var b := Fold(steps);
        var last := steps[|steps| - 1];
        assert b.outcomes == before.outcomes + [last.handled.outcome];
        forall id ensures id in b.marked <==> ProcessedId(steps, b, id) {
          if id in before.marked {
            assert ProcessedId(prefix, before, id);
            var k :| 0 <= k < |before.outcomes| && k < |prefix| && prefix[k].id == id && before.outcomes[k].Processed?;
            assert steps[k] == prefix[k] && b.outcomes[k] == before.outcomes[k];
          } else if id in b.marked {
            assert b.outcomes[|steps| - 1].Processed? && steps[|steps| - 1].id == id;
          }
          if ProcessedId(steps, b, id) {
            var k :| 0 <= k < |b.outcomes| && k < |steps| && steps[k].id == id && b.outcomes[k].Processed?;
            if k < |before.outcomes| {
              assert prefix[k] == steps[k] && before.outcomes[k] == b.outcomes[k];
              assert ProcessedId(prefix, before, id);
            }
          }
        }
      }
    }
  }

  /** Once a prefix of the hits has ended the loop, the remaining hits change
      nothing. */
  lemma {:induction false} StopsAtEscape(steps: seq<Step>, n: nat)
    requires n <= |steps| && Fold(steps[..n]).aborted
    ensures Fold(steps) == Fold(steps[..n])
    decreases |steps|
  {
    if n < |steps| {
      assert steps[..|steps| - 1][..n] == steps[..n];
      StopsAtEscape(steps[..|steps| - 1], n);
    } else {
      assert steps[..n] == steps;
    }
  }

  /** What the per-message lemmas establish about each step: it marks only its
      own message, as its last call, right after the reply, which comes right
      after synthesis, and it does so exactly when it ends `Processed`. */
  ghost predicate MarksLast(s: Step)
  {
    var e := s.handled.events;
    && (MarkSeen(s.id) in e <==> s.handled.outcome.Processed?)
    && forall j :: 0 <= j < |e| && e[j].MarkSeen? ==>
         e[j] == MarkSeen(s.id) && j == |e| - 1 && 2 <= j && e[j - 1].Send? && e[j - 2].Synthesize?
  }

  /** Every step of a scan has the shape `MarksLast` describes. */
  lemma StepsMarkLast(cfg: Config, items: seq<Item>)
    ensures forall k :: 0 <= k < |items| ==> MarksLast(Steps(cfg, items)[k])
  {
    forall k | 0 <= k < |items| ensures MarksLast(Steps(cfg, items)[k]) {
      var item := items[k];
      StepAt(cfg, items, k);
      if item.fetched.Some? {
        TraceInStageOrder(item, item.fetched.value, DecisionsOf(cfg, item.fetched.value));
        MarkIsLastCall(item, item.fetched.value, DecisionsOf(cfg, item.fetched.value));
      }
    }
  }

  /** In the whole trace of a scan, every `\Seen` mark directly follows the
      reply for that message, which directly follows its synthesis; and the
      ids flagged are exactly the ids of the marks in the trace. */
  lemma {:induction false} MarkFollowsSend(steps: seq<Step>)
    requires forall k :: 0 <= k < |steps| ==> MarksLast(steps[k])
    ensures forall k :: 0 <= k < |Fold(steps).events| && Fold(steps).events[k].MarkSeen? ==>
              2 <= k && Fold(steps).events[k - 1].Send? && Fold(steps).events[k - 2].Synthesize?
    ensures forall id :: id in Fold(steps).marked <==> MarkSeen(id) in Fold(steps).events
    decreases |steps|
  {
    if steps != [] {
      var prefix := steps[..|steps| - 1];
      var before := Fold(prefix);
      MarkFollowsSend(prefix);
      if !before.aborted {
        var last := steps[|steps| - 1];
        var h := last.handled;
        assert MarksLast(last);
        var e := before.events + h.events;
        assert Fold(steps).events == e;
        forall k | 0 <= k < |e| && e[k].MarkSeen? ensures 2 <= k && e[k - 1].Send? && e[k - 2].Synthesize? {
          if k >= |before.events| {
            var j := k - |before.events|;
            assert e[k] == h.events[j];
            assert 2 <= j && e[k - 1] == h.events[j - 1] && e[k - 2] == h.events[j - 2];
          } else {
            assert e[k] == before.events[k];
            assert 2 <= k;
            assert e[k - 1] == before.events[k - 1] && e[k - 2] == before.events[k - 2];
          }
        }
        forall id ensures id in Fold(steps).marked <==> MarkSeen(id) in e {
          if MarkSeen(id) in h.events {
            var j :| 0 <= j < |h.events| && h.events[j] == MarkSeen(id);
          }
        }
      }
    }
  }

  /** In the trace of every scan, each `\Seen` mark directly follows a
      reply, which directly follows a synthesis. */
  lemma ScanMarksFollowSends(cfg: Config, items: seq<Item>)
    ensures var b := RunBatch(cfg, items);
            forall k :: 0 <= k < |b.events| && b.events[k].MarkSeen? ==>
              2 <= k && b.events[k - 1].Send? && b.events[k - 2].Synthesize?
  {
    StepsMarkLast(cfg, items);
    MarkFollowsSend(Steps(cfg, items));
  }

  /** Handling one more hit, which ended with `outcome` after making
      `calls`, extends the scan by that outcome, those calls and its mark,
      unless an earlier hit already ended the loop. */
  lemma FoldAdvance(steps: seq<Step>, i: nat, outcome: Outcome, calls: seq<Event>)
    requires i < |steps| && !Fold(steps[..i]).aborted && steps[i].handled == Handled(outcome, calls)
    ensures Fold(steps[..i + 1]) ==
              Batch(Fold(steps[..i]).outcomes + [outcome], Fold(steps[..i]).events + calls,
                    if outcome.Processed? then Fold(steps[..i]).marked + {steps[i].id} else Fold(steps[..i]).marked,
                    Escapes(outcome))
  {
    assert steps[..i + 1][..i] == steps[..i];
  }

  /** The result of connecting, logging in, selecting the inbox and searching
      `(UNSEEN SUBJECT "TTS")`: the hits in search order, or an exception. */
  datatype Scan = ScanFailed | Hits(items: seq<Item>)

  /** A whole call of `check_email`. An exception before the loop is caught
      and logged: nothing is handled and nothing is marked. */
  function RunCycle(cfg: Config, scan: Scan): Batch
  {
    match scan
    case ScanFailed => Batch([], [], {}, true)
    case Hits(items) => RunBatch(cfg, items)
  }

  /** `check_email` as the file stands: `imaplib` (and the module name
      `email`) are never imported, so the first statement of the `try` raises
      `NameError`, which is caught and logged, and the `logout` in `finally`
      fails and is logged too. Whatever the mailbox holds, nothing is
      handled, no service is called and nothing is marked. */
  function RunCycleAsWritten(cfg: Config, scan: Scan): (b: Batch)
    ensures b.outcomes == [] && b.events == [] && b.marked == {}
  {
    RunCycle(cfg, ScanFailed)
  }

  /** A search hit that the intended scan answers and flags: a single-part
      message with a non-empty body, content the moderation service does not
      flag, and services that all succeed. */
  function AnswerableHit(id: MessageId): Item
  {
    Item(id, Some(Mail("sender", "TTS", SinglePart(Decoded("hello")))),
         Oracles(Responded([false]), AudioSaved, Delivered), Stored)
  }

  /** The same hit, except that the server refuses to flag it `\Seen`. */
  function RefusedHit(id: MessageId): Item
  {
    AnswerableHit(id).(store := StoreRefused)
  }

  /** Whatever the moderation flags, an answerable hit is answered and
      flagged. */
  lemma AnswerableHitIsAnswered(cfg: Config, id: MessageId)
    ensures HandleMessage(cfg, AnswerableHit(id)).outcome == Processed(true)
  {
    var item := AnswerableHit(id);
    assert ExtractEmailBody(item.fetched.value.content) == Some("hello");
    AnswerableIsAnswered(cfg, item);
  }

  /** With the missing imports supplied, the scan flags an answerable hit,
      under every moderation setting; as written it flags nothing. */
  lemma MissingImportsLoseEveryMessage(cfg: Config)
    ensures "1" in RunCycle(cfg, Hits([AnswerableHit("1")])).marked
    ensures RunCycleAsWritten(cfg, Hits([AnswerableHit("1")])).marked == {}
  {
    var items := [AnswerableHit("1")];
    var h := HandleMessage(cfg, items[0]);
    AnswerableHitIsAnswered(cfg, "1");
    var steps := Steps(cfg, items);
    StepAt(cfg, items, 0);
    assert steps[..0] == [];
    FoldAdvance(steps, 0, h.outcome, h.events);
    assert steps[..1] == steps;
  }

  /** Whatever the moderation flags, the refused hit is answered but not
      flagged, and it does not end the loop. */
  lemma RefusedHitIsUnflagged(cfg: Config, id: MessageId)
    ensures HandleMessage(cfg, RefusedHit(id)).outcome == Unflagged(true)
    ensures MarkSeen(id) !in HandleMessage(cfg, RefusedHit(id)).events
  {
    var item := RefusedHit(id);
    var mail := item.fetched.value;
    var d := DecisionsOf(cfg, mail);
    assert d.body == Some("hello");
    TraceShape(item, mail, d);
    RefusedFlagLeavesUnseen(item, mail, d);
  }

  /** A hit whose flag the server refuses does not end the scan: the next
      hit is still answered and flagged, and the refused one stays unseen. */
  lemma RefusedFlagKeepsScanning(cfg: Config)
    ensures var b := RunCycle(cfg, Hits([RefusedHit("1"), AnswerableHit("2")]));
            b.outcomes == [Unflagged(true), Processed(true)] && b.marked == {"2"} && !b.aborted
  {
    var items := [RefusedHit("1"), AnswerableHit("2")];
    var steps := Steps(cfg, items);
    var h0 := HandleMessage(cfg, items[0]);
    var h1 := HandleMessage(cfg, items[1]);
    RefusedHitIsUnflagged(cfg, "1");
    AnswerableHitIsAnswered(cfg, "2");
    StepAt(cfg, items, 0);
    StepAt(cfg, items, 1);
    assert steps[..0] == [];
    FoldAdvance(steps, 0, h0.outcome, h0.events);
    FoldAdvance(steps, 1, h1.outcome, h1.events);
    assert steps[..2] == steps;
  }

  /** The mailbox's `\Seen` flags, which the scan sets in place. */
  class Mailbox {
    var seen: set<MessageId>

    constructor (initiallySeen: set<MessageId>)
      ensures seen == initiallySeen
    {
      seen := initiallySeen;
    }

    /** `mail.store(id, '+FLAGS', '\\Seen')`, answered by the server with
        `reply`: only a flag it sets changes the mailbox. */
    method Store(id: MessageId, reply: StoreReply)
      modifies this
      ensures seen == if reply.Stored? then old(seen) + {id} else old(seen)
    {
      if reply.Stored? {
        seen := seen + {id};
      }
    }
  }

  /** The body of the loop of `check_email` for one search hit: the service
      calls it makes, in order, and the `\Seen` flag it sets, which are
      exactly those `HandleMessage` describes. */
  method ProcessMessage(mailbox: Mailbox, cfg: Config, item: Item) returns (outcome: Outcome, calls: seq<Event>)
    modifies mailbox
    ensures Handled(outcome, calls) == HandleMessage(cfg, item)
    ensures mailbox.seen == if outcome.Processed? then old(mailbox.seen) + {item.id} else old(mailbox.seen)
  {
    calls := [];
    if item.fetched.None? {
      return FetchRaised, calls;
    }
    var mail := item.fetched.value;
    var body := ExtractEmailBody(mail.content);
    if body.None? || body.value == "" {
      return NoBody, calls;
    }
    if |body.value| > MaxCharacterCount {
      return TooLong, calls;
    }
    var text := body.value;
    ghost var d := DecisionsOf(cfg, mail);
    TraceShape(item, mail, d);
    ghost var full := Calls(item, mail, d);
    var required := ModerationRequired(cfg, mail.subject);
    ghost var m := if required then 1 else 0;
    if required {
      calls := calls + [Moderate(text)];
    }
    assert calls == full[..m];
    if required && !IsContentSafe(item.oracles.moderation) {
      return Unsafe, calls;
    }
    var voice := ExtractVoiceModel(mail.subject);
    calls := calls + [Synthesize(text, voice)];
    assert calls == full[..m + 1];
    if item.oracles.synthesis.SynthesisError? {
      return SynthesisFailed, calls;
    }
    var delivered := item.oracles.send.Delivered?;
    calls := calls + [Send(mail.sender, mail.subject, delivered)];
    assert calls == full[..m + 2];
    mailbox.Store(item.id, item.store);
    if item.store.StoreError? {
      return StoreRaised, calls;
    }
    if item.store.StoreRefused? {
      return Unflagged(delivered), calls;
    }
    calls := calls + [MarkSeen(item.id)];
    assert calls == full;
    outcome := Processed(delivered);
  }

  /** One turn of the `for` loop: handles hit `i`, extending the outcomes,
      the trace and the mailbox's flags by exactly what the scan records for
      it, and reports whether it raised. */
  method Advance(mailbox: Mailbox, cfg: Config, items: seq<Item>, i: nat, ghost steps: seq<Step>,
                 outcomes: seq<Outcome>, events: seq<Event>, ghost base: set<MessageId>)
    returns (outcomes': seq<Outcome>, events': seq<Event>, escaped: bool)
    requires steps == Steps(cfg, items) && i < |items| && !Fold(steps[..i]).aborted
    requires outcomes == Fold(steps[..i]).outcomes && events == Fold(steps[..i]).events
    requires mailbox.seen == base + Fold(steps[..i]).marked
    modifies mailbox
    ensures outcomes' == Fold(steps[..i + 1]).outcomes && events' == Fold(steps[..i + 1]).events
    ensures mailbox.seen == base + Fold(steps[..i + 1]).marked
    ensures escaped == Fold(steps[..i + 1]).aborted
  {
    var outcome, calls := ProcessMessage(mailbox, cfg, items[i]);
    StepAt(cfg, items, i);
    FoldAdvance(steps, i, outcome, calls);
    outcomes', events' := outcomes + [outcome], events + calls;
    escaped := Escapes(outcome);
  }

  /** `check_email`: handles every search hit in order, calling the services
      (whose replies are part of each hit) and flagging each message that was
      answered; an exception from a fetch or a flag store ends the loop. The
      returned outcomes and trace, and the flags added, are those of
      `RunCycle`. */
  method CheckEmail(mailbox: Mailbox, cfg: Config, scan: Scan) returns (outcomes: seq<Outcome>, events: seq<Event>)
    modifies mailbox
    ensures outcomes == RunCycle(cfg, scan).outcomes
    ensures events == RunCycle(cfg, scan).events
    ensures mailbox.seen == old(mailbox.seen) + RunCycle(cfg, scan).marked
  {
    outcomes, events := [], [];
    if scan.ScanFailed? {
      return;
    }
    var items := scan.items;
    ghost var steps := Steps(cfg, items);
    if |items| == 0 {
      return;
    }
    var i := 0;
    while i < |items|
      invariant 0 <= i <= |items|
      invariant !Fold(steps[..i]).aborted
      invariant outcomes == Fold(steps[..i]).outcomes
      invariant events == Fold(steps[..i]).events
      invariant mailbox.seen == old(mailbox.seen) + Fold(steps[..i]).marked
    {
      var escaped;
      outcomes, events, escaped := Advance(mailbox, cfg, items, i, steps, outcomes, events, old(mailbox.seen));
      if escaped {
        StopsAtEscape(steps, i + 1);
        return;
      }
      i := i + 1;
    }
    assert steps[..i] == steps;
  }
}
