/** `updateMailchimp`: one pass over the board's items, in order, producing one outcome
    per item; items with an email are upserted and followed by a pause, items without
    one are skipped without touching the list. */
module Sync {
  import opened Wrappers
  import opened Extraction
  import opened Mailchimp

  /** The one-second wait between items that made requests, kept as a count of pauses. */
  class Pacer {
    ghost var pauses: nat

    constructor ()
      ensures pauses == 0
    {
      pauses := 0;
    }

    /** `await new Promise(resolve => setTimeout(resolve, 1000))`. */
    method Pause()
      modifies this
      ensures pauses == old(pauses) + 1
    {
      pauses := pauses + 1;
    }
  }

  /** The items to process: none when the board data is missing. */
  function Items(data: Option<seq<Item>>): seq<Item> {
    match data
    case None => []
    case Some(items) => items
  }

  /** What a run has produced so far: its outcomes, the list's state and the pauses taken. */
  datatype Run = Run(results: seq<Outcome>, remote: Remote, pauses: nat)

  /** One iteration of the loop: extract the item; skip it when it has no email,
      otherwise upsert it and pause. */
  function ItemStep(prev: Run, item: Item, transport: nat -> Net): Run {
    var record := Extract(item);
    match record.email
    case None =>
      Run(prev.results + [Skipped(NoEmailReason)], prev.remote, prev.pauses)
    case Some(email) =>
      var (o, remote) := UpsertStep(prev.remote, transport, email, record.mergeFields);
      Run(prev.results + [o], remote, prev.pauses + 1)
  }

  /** An iteration appends exactly one outcome, the item's: it carries the item's email,
      it is `skipped` exactly when there is none, and a successful one reports the
      item's merge fields. A skipped item changes neither the list nor the pauses. */
  lemma ItemStepOutcome(prev: Run, item: Item, transport: nat -> Net)
    ensures var r := ItemStep(prev, item, transport);
      var o := r.results[|prev.results|];
      && |r.results| == |prev.results| + 1
      && r.results[..|prev.results|] == prev.results
      && o.Email() == Extract(item).email
      && (o.Skipped? <==> Extract(item).email.None?)
      && (o.Skipped? ==> o.reason == NoEmailReason && r.remote == prev.remote && r.pauses == prev.pauses)
      && (o.SuccessNew? || o.Updated? || o.NoChanges? ==> o.mergeFields == Extract(item).mergeFields)
  {
    var record := Extract(item);
    if record.email.Some? {
      UpsertErrors(prev.remote, transport, record.email.value, record.mergeFields);
      UpsertClassifiesAny(prev.remote, transport, record.email.value, record.mergeFields);
    }
  }

  /** The run over `items` against a list starting in state `start`. */
  function SyncRun(items: seq<Item>, start: Remote, transport: nat -> Net): (r: Run)
    ensures |r.results| == |items|
    decreases |items|
  {
    if items == [] then Run([], start, 0)
    else
      var prev := SyncRun(items[..|items| - 1], start, transport);
      ItemStepOutcome(prev, items[|items| - 1], transport);
      ItemStep(prev, items[|items| - 1], transport)
  }

  /** Items are processed in order: the run over `items + [x]` is the run over `items`
      followed by one iteration for `x`. */
  lemma SyncRunSnoc(items: seq<Item>, x: Item, start: Remote, transport: nat -> Net)
    ensures SyncRun(items + [x], start, transport) == ItemStep(SyncRun(items, start, transport), x, transport)
  {
    assert (items + [x])[..|items|] == items;
  }

  /** How many items carry an email. */
  function EmailCount(items: seq<Item>): nat
    decreases |items|
  {
    if items == [] then 0
    else EmailCount(items[..|items| - 1]) + (if Extract(items[|items| - 1]).email.Some? then 1 else 0)
  }

  /** The `i`-th outcome belongs to the `i`-th item: it carries that item's email, it is
      `skipped` with reason "No email found" exactly when the item has no email, and
      otherwise it is the upsert's outcome for that email and those merge fields against
      the list as the items before it left it. */
  lemma SyncOutcomeAt(items: seq<Item>, start: Remote, transport: nat -> Net, i: nat)
    requires i < |items|
    ensures var o := SyncRun(items, start, transport).results[i];
      var record := Extract(items[i]);
      && o.Email() == record.email
      && (o.Skipped? <==> record.email.None?)
      && (o.Skipped? ==> o.reason == NoEmailReason)
      && (o.SuccessNew? || o.Updated? || o.NoChanges? ==> o.mergeFields == record.mergeFields)
      && (record.email.Some? ==>
            o == UpsertStep(SyncRun(items[..i], start, transport).remote, transport, record.email.value, record.mergeFields).0)
  {
    var prev := SyncRun(items[..i], start, transport);
    SyncResultAt(items, start, transport, i);
    StepOutcome(prev, items[i], transport, SyncRun(items, start, transport).results[i]);
  }

  /** The `i`-th result's `status` is `skipped` exactly when the `i`-th item has no
      email, and it is never `skipped` for an item with one. */
  lemma SyncStatusSkipped(items: seq<Item>, start: Remote, transport: nat -> Net, i: nat)
    requires i < |items|
    ensures SyncRun(items, start, transport).results[i].Status() == "skipped" <==> Extract(items[i]).email.None?
  {
    SyncOutcomeAt(items, start, transport, i);
  }

  /** The `i`-th outcome of a run is the one the `i`-th iteration appends. */
  lemma SyncResultAt(items: seq<Item>, start: Remote, transport: nat -> Net, i: nat)
    requires i < |items|
    ensures var prev := SyncRun(items[..i], start, transport);
      |prev.results| == i && SyncRun(items, start, transport).results[i] == ItemStep(prev, items[i], transport).results[i]
  {
    var prev := SyncRun(items[..i], start, transport);
    var whole := SyncRun(items, start, transport).results;
    var upTo := SyncRun(items[..i + 1], start, transport);
    SyncRunPrefix(items, start, transport, i + 1);
    assert upTo.results == whole[..i + 1];
    assert items[..i] + [items[i]] == items[..i + 1];
    SyncRunSnoc(items[..i], items[i], start, transport);
    assert upTo == ItemStep(prev, items[i], transport);
    assert whole[i] == whole[..i + 1][i];
  }

  /** The outcome an iteration appends, stated of that outcome `o`. */
  lemma StepOutcome(prev: Run, item: Item, transport: nat -> Net, o: Outcome)
    requires o == ItemStep(prev, item, transport).results[|prev.results|]
    ensures var record := Extract(item);
      && o.Email() == record.email
      && (o.Skipped? <==> record.email.None?)
      && (o.Skipped? ==> o.reason == NoEmailReason)
      && (o.SuccessNew? || o.Updated? || o.NoChanges? ==> o.mergeFields == record.mergeFields)
      && (record.email.Some? ==> o == UpsertStep(prev.remote, transport, record.email.value, record.mergeFields).0)
  {
    ItemStepOutcome(prev, item, transport);
  }

  /** Later items do not change earlier outcomes: the run over the first `j` items
      produces the first `j` outcomes of the whole run. */
  lemma {:induction false} SyncRunPrefix(items: seq<Item>, start: Remote, transport: nat -> Net, j: nat)
    requires j <= |items|
    ensures SyncRun(items[..j], start, transport).results == SyncRun(items, start, transport).results[..j]
  {
    if j == |items| {
      assert items[..j] == items;
    } else {
      var n := |items| - 1;
      var run := SyncRun(items, start, transport);
      SyncRunPrefix(items[..n], start, transport, j);
      assert items[..n][..j] == items[..j];
      assert run.results[..n] == SyncRun(items[..n], start, transport).results;
      assert run.results[..j] == run.results[..n][..j];
    }
  }

  /** A successful upsert reports the merge fields it was given. */
  lemma UpsertClassifiesAny(s: Remote, transport: nat -> Net, email: string, fields: MergeFields)
    ensures var (o, _) := UpsertStep(s, transport, email, fields);
      o.SuccessNew? || o.Updated? || o.NoChanges? ==> o.mergeFields == fields
  {
  }

  /** Every item with an email is followed by exactly one pause, and no other item is. */
  lemma {:induction false} SyncPauses(items: seq<Item>, start: Remote, transport: nat -> Net)
    ensures SyncRun(items, start, transport).pauses == EmailCount(items)
  {
    if items != [] {
      SyncPauses(items[..|items| - 1], start, transport);
    }
  }

  /** Each item with an email makes one or two requests (a lookup, then a write unless
      the lookup threw); an item without one makes none. */
  lemma {:induction false} SyncRequests(items: seq<Item>, start: Remote, transport: nat -> Net)
    ensures var r := SyncRun(items, start, transport).remote;
      start.requests + EmailCount(items) <= r.requests <= start.requests + 2 * EmailCount(items)
  {
    if items != [] {
      var prev := SyncRun(items[..|items| - 1], start, transport);
      SyncRequests(items[..|items| - 1], start, transport);
      var record := Extract(items[|items| - 1]);
      if record.email.Some? {
        UpsertWritesAfterLookup(prev.remote, transport, record.email.value, record.mergeFields);
      }
    }
  }

  /** Per item: one without an email makes no request, one with an email makes one or
      two (a lookup, then a write unless the lookup threw). */
  lemma SyncRequestsPerItem(items: seq<Item>, x: Item, start: Remote, transport: nat -> Net)
    ensures var a := SyncRun(items, start, transport).remote.requests;
      var b := SyncRun(items + [x], start, transport).remote.requests;
      && (Extract(x).email.None? ==> b == a)
      && (Extract(x).email.Some? ==> a + 1 <= b <= a + 2)
  {
    SyncRunSnoc(items, x, start, transport);
    var record := Extract(x);
    if record.email.Some? {
      UpsertWritesAfterLookup(SyncRun(items, start, transport).remote, transport, record.email.value, record.mergeFields);
    }
  }

  /** Appending an item without an email appends a `skipped` outcome and changes
      neither the list nor the pauses. */
  lemma SyncSkippedItem(items: seq<Item>, x: Item, start: Remote, transport: nat -> Net)
    requires Extract(x).email.None?
    ensures var before := SyncRun(items, start, transport);
      SyncRun(items + [x], start, transport) == Run(before.results + [Skipped(NoEmailReason)], before.remote, before.pauses)
  {
    assert (items + [x])[..|items|] == items;
  }

  /** A run over items none of which carries an email skips them all and leaves the
      list untouched. */
  lemma {:induction false} SyncWithoutEmails(items: seq<Item>, start: Remote, transport: nat -> Net)
    requires forall i | 0 <= i < |items| :: Extract(items[i]).email.None?
    ensures SyncRun(items, start, transport) == Run(seq(|items|, _ => Skipped(NoEmailReason)), start, 0)
  {
    if items != [] {
      SyncWithoutEmails(items[..|items| - 1], start, transport);
    }
  }

  /** Every request is delivered. */
  ghost predicate AllDelivered(transport: nat -> Net) {
    forall n :: transport(n) == Deliver
  }

  /** With every request delivered, no outcome is an error. */
  lemma {:induction false} SyncAllDeliveredNoErrors(items: seq<Item>, start: Remote, transport: nat -> Net)
    requires AllDelivered(transport)
    ensures forall i | 0 <= i < |items| :: !SyncRun(items, start, transport).results[i].Error?
  {
    if items != [] {
      var n := |items| - 1;
      SyncAllDeliveredNoErrors(items[..n], start, transport);
      var prev := SyncRun(items[..n], start, transport);
      var run := SyncRun(items, start, transport);
      var record := Extract(items[n]);
      if record.email.Some? {
        UpsertClassifies(prev.remote, transport, record.email.value, record.mergeFields);
      }
      forall i | 0 <= i < |items| ensures !run.results[i].Error? {
        if i < n {
          assert run.results[i] == prev.results[i];
        }
      }
    }
  }

  // ---------------------------------------------------------------------------
  // Running the same items twice

  /** Items whose emails address the same member carry the same merge fields. */
  ghost predicate ConsistentFields(items: seq<Item>) {
    forall i, j | 0 <= i < |items| && 0 <= j < |items| ::
      Extract(items[i]).email.Some? && Extract(items[j]).email.Some? &&
      SubscriberHash(Extract(items[i]).email.value) == SubscriberHash(Extract(items[j]).email.value)
      ==> Extract(items[i]).mergeFields == Extract(items[j]).mergeFields
  }

  /** The list holds every item's merge fields under that item's key. */
  ghost predicate HoldsAll(items: seq<Item>, members: map<Key, Member>) {
    forall i | 0 <= i < |items| && Extract(items[i]).email.Some? ::
      var key := SubscriberHash(Extract(items[i]).email.value);
      key in members && members[key].mergeFields == Extract(items[i]).mergeFields
  }

  /** Adding one item keeps every item's merge fields under its key, when its own
      merge fields are written under its key, nothing else changes, and it agrees
      with the items before it. */
  lemma HoldsAllExtend(init: seq<Item>, x: Item, members: map<Key, Member>, members': map<Key, Member>)
    requires HoldsAll(init, members)
    requires ConsistentFields(init + [x])
    requires Extract(x).email.None? ==> members' == members
    requires Extract(x).email.Some? ==>
      var key := SubscriberHash(Extract(x).email.value);
      && key in members' && members'[key].mergeFields == Extract(x).mergeFields
      && forall k | k in members && k != key :: k in members' && members'[k] == members[k]
    ensures HoldsAll(init + [x], members')
  {
    var items := init + [x];
    forall i | 0 <= i < |items| && Extract(items[i]).email.Some?
      ensures SubscriberHash(Extract(items[i]).email.value) in members'
      ensures members'[SubscriberHash(Extract(items[i]).email.value)].mergeFields == Extract(items[i]).mergeFields
    {
      if i < |init| {
        assert items[i] == init[i];
        assert items[|init|] == x;
      }
    }
  }

  /** With every request delivered and consistent items, a run leaves every item's
      merge fields in the list under its key. */
  lemma {:induction false} SyncStoresAll(items: seq<Item>, start: Remote, transport: nat -> Net)
    requires AllDelivered(transport)
    requires ConsistentFields(items)
    ensures HoldsAll(items, SyncRun(items, start, transport).remote.members)
  {
    if items != [] {
      var n := |items| - 1;
      var init, x := items[..n], items[n];
      assert items == init + [x];
      assert ConsistentFields(init) by {
        forall i | 0 <= i < n ensures init[i] == items[i] { }
      }
      SyncStoresAll(init, start, transport);
      var prev := SyncRun(init, start, transport);
      var record := Extract(x);
      if record.email.Some? {
        UpsertWritesAfterLookup(prev.remote, transport, record.email.value, record.mergeFields);
      }
      HoldsAllExtend(init, x, prev.remote.members, SyncRun(items, start, transport).remote.members);
    }
  }

  /** The outcome a rerun reports for an item: `no_changes` with its email and merge
      fields, or `skipped` when it has no email. */
  function RerunOutcome(item: Item): Outcome {
    var record := Extract(item);
    match record.email
    case None => Skipped(NoEmailReason)
    case Some(email) => NoChanges(email, record.mergeFields)
  }

  /** Upserting merge fields the list already holds under the key reports `no_changes`
      and keeps every item's merge fields in place. */
  lemma UpsertHeld(items: seq<Item>, s: Remote, transport: nat -> Net, email: string, fields: MergeFields)
    requires AllDelivered(transport)
    requires HoldsAll(items, s.members)
    requires SubscriberHash(email) in s.members && s.members[SubscriberHash(email)].mergeFields == fields
    ensures var (o, s') := UpsertStep(s, transport, email, fields);
      o == NoChanges(email, fields) && HoldsAll(items, s'.members)
  {
    UpsertClassifies(s, transport, email, fields);
    UpsertWritesAfterLookup(s, transport, email, fields);
  }

  /** One iteration of a rerun: it appends the item's rerun outcome and keeps every
      item's merge fields in the list. */
  lemma RerunStep(items: seq<Item>, prev: Run, j: nat, transport: nat -> Net)
    requires AllDelivered(transport)
    requires j < |items|
    requires HoldsAll(items, prev.remote.members)
    ensures var r := ItemStep(prev, items[j], transport);
      r.results == prev.results + [RerunOutcome(items[j])] && HoldsAll(items, r.remote.members)
  {
    var record := Extract(items[j]);
    if record.email.Some? {
      UpsertHeld(items, prev.remote, transport, record.email.value, record.mergeFields);
    }
  }

  /** Against a list that already holds every item's merge fields, a run with every
      request delivered keeps it so and reports each item `no_changes`, or `skipped`
      when it has no email. */
  lemma {:induction false} RerunUnchanged(items: seq<Item>, n: nat, start: Remote, transport: nat -> Net)
    requires AllDelivered(transport)
    requires n <= |items|
    requires HoldsAll(items, start.members)
    ensures var run := SyncRun(items[..n], start, transport);
      && HoldsAll(items, run.remote.members)
      && forall i | 0 <= i < n :: run.results[i] == RerunOutcome(items[i])
  {
    if n > 0 {
      RerunUnchanged(items, n - 1, start, transport);
      assert items[..n][..n - 1] == items[..n - 1];
      assert items[..n][n - 1] == items[n - 1];
      var prev := SyncRun(items[..n - 1], start, transport);
      var run := SyncRun(items[..n], start, transport);
      RerunStep(items, prev, n - 1, transport);
      assert run == ItemStep(prev, items[n - 1], transport);
      forall i | 0 <= i < n ensures run.results[i] == RerunOutcome(items[i]) {
        if i < n - 1 {
          assert run.results[i] == prev.results[i];
        }
      }
    }
  }

  /** Running the same items a second time with every request delivered reports
      `no_changes` for every item with an email, and `skipped` for the others,
      provided items that share a member key carry the same merge fields. */
  lemma SyncRerunNoChanges(items: seq<Item>, start: Remote, transport: nat -> Net)
    requires AllDelivered(transport)
    requires ConsistentFields(items)
    ensures var second := SyncRun(items, SyncRun(items, start, transport).remote, transport);
      forall i | 0 <= i < |items| ::
        && (Extract(items[i]).email.Some? ==> second.results[i] == NoChanges(Extract(items[i]).email.value, Extract(items[i]).mergeFields))
        && (Extract(items[i]).email.None? ==> second.results[i] == Skipped(NoEmailReason))
  {
    var first := SyncRun(items, start, transport);
    SyncStoresAll(items, start, transport);
    RerunUnchanged(items, |items|, first.remote, transport);
    assert items[..|items|] == items;
  }

  // ---------------------------------------------------------------------------
  // The loop

  /** `updateMailchimp`: the outcomes, the list's new state and the pauses taken are
      those of the run over the items; missing board data yields no outcome at all. */
  method UpdateMailchimp(data: Option<seq<Item>>, list: MailingList, pacer: Pacer) returns (results: seq<Outcome>)
    modifies list, pacer
    ensures var run := SyncRun(Items(data), old(list.State()), list.transport);
      && results == run.results
      && list.State() == run.remote
      && pacer.pauses == old(pacer.pauses) + run.pauses
  {
    if data.None? {
      return [];
    }
    var items := data.value;
    results := [];
    for i := 0 to |items|
      invariant var run := SyncRun(items[..i], old(list.State()), list.transport);
        && results == run.results
        && list.State() == run.remote
        && pacer.pauses == old(pacer.pauses) + run.pauses
    {
      assert items[..i + 1][..i] == items[..i];
      var record := Extract(items[i]);
      if record.email.Some? {
        var outcome := list.UpsertSubscriber(record.email.value, record.mergeFields);
        results := results + [outcome];
        pacer.Pause();
      } else {
        results := results + [Skipped(NoEmailReason)];
      }
    }
    assert items[..|items|] == items;
  }
}
