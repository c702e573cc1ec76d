/**
 * The send loop of the newsletter's `/send` route: subscribers are cut into batches of 50,
 * each batch's messages are posted to the provider, results are collected in subscriber
 * order, and the function pauses between batches.
 */
module NewsletterDispatch {
  import opened Js
  import opened Edge
  import opened Batching
  import opened NewsletterMessage

  const BatchSize: nat := 50

  /** One entry of `results`. */
  datatype SendResult = SendResult(email: string, success: bool, error: Option<string>, subscriber: Subscriber)

  /** The state of the send loop when it ends: the results, what was posted, the pauses taken, and the rejection that ended it early, if any. */
  datatype Run = Run(results: seq<SendResult>, outbox: seq<Email>, delays: nat, aborted: Option<string>)

  /** The entry for a subscriber whose `fetch` returned a response. */
  function ResultOf(s: Subscriber, reply: ProviderReply): SendResult
    requires reply.Reply?
  {
    if reply.ok then SendResult(s.email, true, None, s) else SendResult(s.email, false, Some(reply.text), s)
  }

  /** The messages of a list of subscribers, in order. */
  function EmailsFor(settings: Settings, c: Campaign, subs: seq<Subscriber>): (r: seq<Email>)
    ensures |r| == |subs|
  {
    seq(|subs|, i requires 0 <= i < |subs| => CampaignEmail(settings, c, subs[i]))
  }

  /** The provider's answer to each message. */
  function RepliesTo(emails: seq<Email>, provider: Provider): (r: seq<ProviderReply>)
    ensures |r| == |emails|
  {
    seq(|emails|, i requires 0 <= i < |emails| => provider(emails[i]))
  }

  /** No subscriber's `fetch` throws. */
  predicate NoneThrow(settings: Settings, c: Campaign, provider: Provider, subs: seq<Subscriber>) {
    forall i :: 0 <= i < |subs| ==> provider(CampaignEmail(settings, c, subs[i])).Reply?
  }

  /** Each subscriber's entry, computed from that subscriber's reply alone. */
  function Outcomes(settings: Settings, c: Campaign, provider: Provider, subs: seq<Subscriber>): (r: seq<SendResult>)
    requires NoneThrow(settings, c, provider, subs)
    ensures |r| == |subs|
  {
    seq(|subs|, i requires 0 <= i < |subs| && NoneThrow(settings, c, provider, subs) =>
      ResultOf(subs[i], provider(CampaignEmail(settings, c, subs[i]))))
  }

  /** What the batch loop does with a given list of batches: the specification of `Dispatch`. */
  function RunBatches(settings: Settings, c: Campaign, provider: Provider, batches: seq<seq<Subscriber>>): Run
    decreases |batches|
  {
    if batches == [] then Run([], [], 0, None)
    else
      var emails := EmailsFor(settings, c, batches[0]);
      var replies := RepliesTo(emails, provider);
      match FirstThrown(replies)
      case Some(m) => Run([], emails, 0, Some(m))
      case None =>
        assert NoneThrow(settings, c, provider, batches[0]) by {
          forall i | 0 <= i < |batches[0]| ensures provider(CampaignEmail(settings, c, batches[0][i])).Reply? {
            assert replies[i] == provider(CampaignEmail(settings, c, batches[0][i]));
          }
        }
        var rest := RunBatches(settings, c, provider, batches[1..]);
        Run(Outcomes(settings, c, provider, batches[0]) + rest.results, emails + rest.outbox,
            (if |batches| > 1 then 1 else 0) + rest.delays, rest.aborted)
  }

  /** A batch's replies hold no exception exactly when none of its subscribers' `fetch` throws. */
  lemma NoneThrowReplies(settings: Settings, c: Campaign, provider: Provider, batch: seq<Subscriber>)
    ensures FirstThrown(RepliesTo(EmailsFor(settings, c, batch), provider)).None?
            <==> NoneThrow(settings, c, provider, batch)
  {
    var replies := RepliesTo(EmailsFor(settings, c, batch), provider);
    assert forall i :: 0 <= i < |batch| ==> replies[i] == provider(CampaignEmail(settings, c, batch[i]));
  }

  /** One step of `RunBatches`. */
  lemma RunBatchesStep(settings: Settings, c: Campaign, provider: Provider, batches: seq<seq<Subscriber>>)
    requires batches != []
    ensures var emails := EmailsFor(settings, c, batches[0]);
      var thrown := FirstThrown(RepliesTo(emails, provider));
      thrown.Some? ==> RunBatches(settings, c, provider, batches) == Run([], emails, 0, thrown)
    ensures var emails := EmailsFor(settings, c, batches[0]);
      var rest := RunBatches(settings, c, provider, batches[1..]);
      NoneThrow(settings, c, provider, batches[0]) ==>
        RunBatches(settings, c, provider, batches)
        == Run(Outcomes(settings, c, provider, batches[0]) + rest.results, emails + rest.outbox,
               (if |batches| > 1 then 1 else 0) + rest.delays, rest.aborted)
  {
    NoneThrowReplies(settings, c, provider, batches[0]);
  }

  /** What the loop keeps: the batches done so far, followed by the rest, give the whole run. */
  ghost predicate DoneThenRest(settings: Settings, c: Campaign, provider: Provider, batches: seq<seq<Subscriber>>, b: nat,
                               results: seq<SendResult>, outbox: seq<Email>, delays: nat)
    requires b <= |batches|
  {
    var rest := RunBatches(settings, c, provider, batches[b..]);
    RunBatches(settings, c, provider, batches)
    == Run(results + rest.results, outbox + rest.outbox, delays + rest.delays, rest.aborted)
  }

  /** A pass that meets an exception ends the loop with the whole run. */
  lemma LoopStepThrown(settings: Settings, c: Campaign, provider: Provider, batches: seq<seq<Subscriber>>, b: nat,
                       results: seq<SendResult>, outbox: seq<Email>, delays: nat)
    requires b < |batches| && DoneThenRest(settings, c, provider, batches, b, results, outbox, delays)
    ensures var emails := EmailsFor(settings, c, batches[b]);
      var thrown := FirstThrown(RepliesTo(emails, provider));
      thrown.Some? ==> RunBatches(settings, c, provider, batches) == Run(results, outbox + emails, delays, thrown)
  {
    var rest := batches[b..];
    assert rest[0] == batches[b];
    RunBatchesStep(settings, c, provider, rest);
    assert results + [] == results;
  }

  /** A pass without exceptions keeps `DoneThenRest` one batch further on. */
  lemma LoopStepContinue(settings: Settings, c: Campaign, provider: Provider, batches: seq<seq<Subscriber>>, b: nat,
                         results: seq<SendResult>, outbox: seq<Email>, delays: nat)
    requires b < |batches| && DoneThenRest(settings, c, provider, batches, b, results, outbox, delays)
    requires FirstThrown(RepliesTo(EmailsFor(settings, c, batches[b]), provider)).None?
    ensures NoneThrow(settings, c, provider, batches[b])
    ensures DoneThenRest(settings, c, provider, batches, b + 1,
                         results + Outcomes(settings, c, provider, batches[b]),
                         outbox + EmailsFor(settings, c, batches[b]),
                         delays + (if b < |batches| - 1 then 1 else 0))
  {
    var rest := batches[b..];
    assert rest[0] == batches[b] && rest[1..] == batches[b + 1..];
    NoneThrowReplies(settings, c, provider, batches[b]);
    RunBatchesStep(settings, c, provider, rest);
    var r := RunBatches(settings, c, provider, batches[b + 1..]);
    var o := Outcomes(settings, c, provider, batches[b]);
    var emails := EmailsFor(settings, c, batches[b]);
    assert results + (o + r.results) == (results + o) + r.results;
    assert outbox + (emails + r.outbox) == (outbox + emails) + r.outbox;
  }

  /** The `for (let b = 0; b < batches.length; b++)` loop, batches built by the slicing loop. */
  method Dispatch(settings: Settings, c: Campaign, provider: Provider, subs: seq<Subscriber>) returns (run: Run)
    ensures run == RunBatches(settings, c, provider, Chunks(subs, BatchSize))
  {
    var batches := MakeChunks(subs, BatchSize);
    var results: seq<SendResult> := [];
    var outbox: seq<Email> := [];
    var delays: nat := 0;
    var b := 0;
    while b < |batches|
      invariant b <= |batches|
      invariant DoneThenRest(settings, c, provider, batches, b, results, outbox, delays)
      decreases |batches| - b
    {
      var emails := EmailsFor(settings, c, batches[b]);
      var thrown := FirstThrown(RepliesTo(emails, provider));
      if thrown.Some? {
        LoopStepThrown(settings, c, provider, batches, b, results, outbox, delays);
        run := Run(results, outbox + emails, delays, thrown);
        return;
      }
      LoopStepContinue(settings, c, provider, batches, b, results, outbox, delays);
      outbox := outbox + emails;
      results := results + Outcomes(settings, c, provider, batches[b]);
      if b < |batches| - 1 {
        delays := delays + 1;
      }
      b := b + 1;
    }
    assert batches[b..] == [];
    assert results + [] == results && outbox + [] == outbox;
    run := Run(results, outbox, delays, None);
  }

  /** `results.filter(r => r.success).length`. */
  function CountSuccess(rs: seq<SendResult>): nat {
    if rs == [] then 0 else (if rs[0].success then 1 else 0) + CountSuccess(rs[1..])
  }

  /** `results.filter(r => !r.success).length`. */
  function CountFailure(rs: seq<SendResult>): nat {
    if rs == [] then 0 else (if rs[0].success then 0 else 1) + CountFailure(rs[1..])
  }

  /** The number of replies that are responses with `ok` set. */
  function CountOk(replies: seq<ProviderReply>): nat {
    if replies == [] then 0 else (if replies[0].Reply? && replies[0].ok then 1 else 0) + CountOk(replies[1..])
  }

  // ---------------------------------------------------------------------------
  // Properties

  lemma {:induction false} CountsAddUp(rs: seq<SendResult>)
    ensures CountSuccess(rs) + CountFailure(rs) == |rs|
  {
    if rs != [] {
      CountsAddUp(rs[1..]);
    }
  }

  /** `sent` is the number of subscribers whose provider response was ok. */
  lemma {:induction false} SentIsOkCount(settings: Settings, c: Campaign, provider: Provider, subs: seq<Subscriber>)
    requires NoneThrow(settings, c, provider, subs)
    ensures CountSuccess(Outcomes(settings, c, provider, subs)) == CountOk(RepliesTo(EmailsFor(settings, c, subs), provider))
  {
    if subs != [] {
      var tail := subs[1..];
      assert NoneThrow(settings, c, provider, tail) by {
        forall i | 0 <= i < |tail| ensures provider(CampaignEmail(settings, c, tail[i])).Reply? {
          assert tail[i] == subs[i + 1];
        }
      }
      assert Outcomes(settings, c, provider, subs)[1..] == Outcomes(settings, c, provider, tail);
      assert RepliesTo(EmailsFor(settings, c, subs), provider)[1..] == RepliesTo(EmailsFor(settings, c, tail), provider);
      SentIsOkCount(settings, c, provider, tail);
    }
  }

  /**
   * One recipient's reply decides that recipient's entry and no other: two providers that
   * agree on every other subscriber's message give the same entries for the others.
   */
  lemma Isolation(settings: Settings, c: Campaign, p: Provider, q: Provider, subs: seq<Subscriber>, j: nat)
    requires j < |subs|
    requires NoneThrow(settings, c, p, subs) && NoneThrow(settings, c, q, subs)
    requires forall i :: 0 <= i < |subs| && CampaignEmail(settings, c, subs[i]) != CampaignEmail(settings, c, subs[j]) ==>
               p(CampaignEmail(settings, c, subs[i])) == q(CampaignEmail(settings, c, subs[i]))
    ensures forall i :: 0 <= i < |subs| && CampaignEmail(settings, c, subs[i]) != CampaignEmail(settings, c, subs[j]) ==>
              Outcomes(settings, c, p, subs)[i] == Outcomes(settings, c, q, subs)[i]
    ensures var r := Outcomes(settings, c, p, subs)[j];
      var reply := p(CampaignEmail(settings, c, subs[j]));
      r.email == subs[j].email && r.subscriber == subs[j]
      && (r.success <==> reply.ok)
      && (!reply.ok ==> r.error == Some(reply.text))
      && (reply.ok ==> r.error == None)
  {
  }

  /** Running batches whose messages all get a response posts every message once, in order. */
  lemma {:induction false} RunWithoutThrow(settings: Settings, c: Campaign, provider: Provider, batches: seq<seq<Subscriber>>)
    requires NoneThrow(settings, c, provider, Flatten(batches))
    ensures var r := RunBatches(settings, c, provider, batches);
      && r.aborted == None
      && r.results == Outcomes(settings, c, provider, Flatten(batches))
      && r.outbox == EmailsFor(settings, c, Flatten(batches))
      && r.delays == (if batches == [] then 0 else |batches| - 1)
    decreases |batches|
  {
    if batches != [] {
      var head, tail := batches[0], batches[1..];
      assert Flatten(batches) == head + Flatten(tail);
      NoneThrowAppend(settings, c, provider, head, Flatten(tail));
      RunBatchesStep(settings, c, provider, batches);
      RunWithoutThrow(settings, c, provider, tail);
      OutcomesAppend(settings, c, provider, head, Flatten(tail));
      EmailsForAppend(settings, c, head, Flatten(tail));
    }
  }

  lemma OutcomesAppend(settings: Settings, c: Campaign, provider: Provider, a: seq<Subscriber>, b: seq<Subscriber>)
    requires NoneThrow(settings, c, provider, a) && NoneThrow(settings, c, provider, b)
    requires NoneThrow(settings, c, provider, a + b)
    ensures Outcomes(settings, c, provider, a + b) == Outcomes(settings, c, provider, a) + Outcomes(settings, c, provider, b)
  {
  }

  lemma NoneThrowAppend(settings: Settings, c: Campaign, provider: Provider, a: seq<Subscriber>, b: seq<Subscriber>)
    ensures NoneThrow(settings, c, provider, a + b)
            <==> NoneThrow(settings, c, provider, a) && NoneThrow(settings, c, provider, b)
  {
    var ab := a + b;
    assert forall i :: 0 <= i < |a| ==> ab[i] == a[i];
    assert forall i :: 0 <= i < |b| ==> ab[|a| + i] == b[i];
  }

  lemma EmailsForAppend(settings: Settings, c: Campaign, a: seq<Subscriber>, b: seq<Subscriber>)
    ensures EmailsFor(settings, c, a + b) == EmailsFor(settings, c, a) + EmailsFor(settings, c, b)
  {
  }

  /** The loop stops early exactly when some subscriber's `fetch` throws. */
  lemma {:induction false} RunAbortsIff(settings: Settings, c: Campaign, provider: Provider, batches: seq<seq<Subscriber>>)
    ensures RunBatches(settings, c, provider, batches).aborted.Some? <==> !NoneThrow(settings, c, provider, Flatten(batches))
    decreases |batches|
  {
    if batches != [] {
      RunBatchesStep(settings, c, provider, batches);
      NoneThrowReplies(settings, c, provider, batches[0]);
      NoneThrowAppend(settings, c, provider, batches[0], Flatten(batches[1..]));
      RunAbortsIff(settings, c, provider, batches[1..]);
    }
  }

  /** What the loop posts is always a prefix of the full list of messages, in order. */
  lemma {:induction false} RunOutboxPrefix(settings: Settings, c: Campaign, provider: Provider, batches: seq<seq<Subscriber>>)
    ensures RunBatches(settings, c, provider, batches).outbox <= EmailsFor(settings, c, Flatten(batches))
    decreases |batches|
  {
    if batches != [] {
      RunBatchesStep(settings, c, provider, batches);
      NoneThrowReplies(settings, c, provider, batches[0]);
      EmailsForAppend(settings, c, batches[0], Flatten(batches[1..]));
      RunOutboxPrefix(settings, c, provider, batches[1..]);
    }
  }

  /** The rejection that stops the loop is the provider's answer to a message it posted. */
  lemma {:induction false} RunAbortWitness(settings: Settings, c: Campaign, provider: Provider, batches: seq<seq<Subscriber>>)
    ensures var r := RunBatches(settings, c, provider, batches);
      r.aborted.Some? ==> exists i :: 0 <= i < |r.outbox| && provider(r.outbox[i]) == Threw(r.aborted.value)
    decreases |batches|
  {
    if batches != [] {
      RunBatchesStep(settings, c, provider, batches);
      NoneThrowReplies(settings, c, provider, batches[0]);
      var emails := EmailsFor(settings, c, batches[0]);
      var replies := RepliesTo(emails, provider);
      var thrown := FirstThrown(replies);
      if thrown.Some? {
        var i :| 0 <= i < |replies| && replies[i] == Threw(thrown.value);
        assert provider(emails[i]) == Threw(thrown.value);
      } else {
        RunAbortWitness(settings, c, provider, batches[1..]);
        var r := RunBatches(settings, c, provider, batches[1..]);
        if r.aborted.Some? {
          var i :| 0 <= i < |r.outbox| && provider(r.outbox[i]) == Threw(r.aborted.value);
          assert (emails + r.outbox)[|emails| + i] == r.outbox[i];
        }
      }
    }
  }

  /**
   * The shape of an aborted run at batch `b`: no `fetch` in the earlier batches threw, every
   * message of batches 0 to b was posted and no later one, and the run reports the first
   * exception of batch b in array order.
   */
  predicate AbortedAt(settings: Settings, c: Campaign, provider: Provider, batches: seq<seq<Subscriber>>, b: nat, r: Run)
    requires b < |batches|
  {
    && NoneThrow(settings, c, provider, Flatten(batches[..b]))
    && r.outbox == EmailsFor(settings, c, Flatten(batches[..b + 1]))
    && r.aborted.Some?
    && r.aborted == FirstThrown(RepliesTo(EmailsFor(settings, c, batches[b]), provider))
  }

  /** A run that aborts does so at the first batch holding a `fetch` that throws, with that batch posted in full. */
  lemma {:induction false} RunAbortShape(settings: Settings, c: Campaign, provider: Provider, batches: seq<seq<Subscriber>>)
    requires RunBatches(settings, c, provider, batches).aborted.Some?
    ensures exists b :: 0 <= b < |batches| && AbortedAt(settings, c, provider, batches, b, RunBatches(settings, c, provider, batches))
    decreases |batches|
  {
    var r := RunBatches(settings, c, provider, batches);
    var head, tail := batches[0], batches[1..];
    RunBatchesStep(settings, c, provider, batches);
    NoneThrowReplies(settings, c, provider, head);
    if FirstThrown(RepliesTo(EmailsFor(settings, c, head), provider)).Some? {
      AbortedAtFirst(settings, c, provider, batches, r);
    } else {
      var rest := RunBatches(settings, c, provider, tail);
      RunAbortShape(settings, c, provider, tail);
      var b :| 0 <= b < |tail| && AbortedAt(settings, c, provider, tail, b, rest);
      assert batches == [head] + tail;
      AbortedAtShift(settings, c, provider, head, tail, b, rest, r);
    }
  }

  lemma AbortedAtFirst(settings: Settings, c: Campaign, provider: Provider, batches: seq<seq<Subscriber>>, r: Run)
    requires batches != [] && r.outbox == EmailsFor(settings, c, batches[0])
    requires r.aborted.Some? && r.aborted == FirstThrown(RepliesTo(EmailsFor(settings, c, batches[0]), provider))
    ensures AbortedAt(settings, c, provider, batches, 0, r)
  {
    assert batches[..0] == [];
    assert batches[..1] == [batches[0]];
    assert [batches[0]][1..] == [];
    assert Flatten(batches[..1]) == batches[0] + Flatten([]);
  }

  lemma AbortedAtShift(settings: Settings, c: Campaign, provider: Provider, head: seq<Subscriber>, tail: seq<seq<Subscriber>>,
                       b: nat, rest: Run, r: Run)
    requires b < |tail| && AbortedAt(settings, c, provider, tail, b, rest)
    requires NoneThrow(settings, c, provider, head)
    requires r.outbox == EmailsFor(settings, c, head) + rest.outbox && r.aborted == rest.aborted
    ensures AbortedAt(settings, c, provider, [head] + tail, b + 1, r)
  {
    var batches := [head] + tail;
    assert batches[..b + 1] == [head] + tail[..b];
    assert batches[..b + 2] == [head] + tail[..b + 1];
    assert ([head] + tail[..b])[1..] == tail[..b];
    assert ([head] + tail[..b + 1])[1..] == tail[..b + 1];
    NoneThrowAppend(settings, c, provider, head, Flatten(tail[..b]));
    EmailsForAppend(settings, c, head, Flatten(tail[..b + 1]));
    assert batches[b + 1] == tail[b];
  }

  /**
   * The send loop over the real batches, when no `fetch` throws: one entry per subscriber in
   * subscriber order, every message posted, ceil(N/50) - 1 pauses, and `sent + failed = N`.
   */
  lemma {:induction false} DispatchSummary(settings: Settings, c: Campaign, provider: Provider, subs: seq<Subscriber>)
    requires NoneThrow(settings, c, provider, subs)
    ensures var r := RunBatches(settings, c, provider, Chunks(subs, BatchSize));
      && r.aborted == None
      && r.results == Outcomes(settings, c, provider, subs)
      && r.outbox == EmailsFor(settings, c, subs)
      && (subs != [] ==> r.delays == (|subs| + BatchSize - 1) / BatchSize - 1)
      && CountSuccess(r.results) + CountFailure(r.results) == |subs|
      && CountSuccess(r.results) == CountOk(RepliesTo(EmailsFor(settings, c, subs), provider))
  {
    ChunksFlatten(subs, BatchSize);
    RunWithoutThrow(settings, c, provider, Chunks(subs, BatchSize));
    ChunksCount(subs, BatchSize);
    var r := RunBatches(settings, c, provider, Chunks(subs, BatchSize));
    CountsAddUp(r.results);
    SentIsOkCount(settings, c, provider, subs);
    if subs != [] {
      assert Chunks(subs, BatchSize) != [];
    }
  }
}
