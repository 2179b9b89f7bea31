/** Whole runs on small boards. */
module Scenarios {
  import opened Wrappers
  import opened Extraction
  import opened Mailchimp
  import opened Sync

  function EmailColumn(email: string): ColumnValue {
    ColumnValue("", "", "", "", email)
  }

  function TextColumn(text: string): ColumnValue {
    ColumnValue("", "", text, "", "")
  }

  const NoFields: MergeFields := MergeFields("", "", "", "")

  const EmptyList: Remote := Remote(map[], 0)

  /** The record of an item with an email column and then a text column. */
  lemma ExtractEmailThenText(email: string, name: string)
    requires email != ""
    ensures Extract(Item([EmailColumn(email), TextColumn(name)])) == Subscriber(Some(email), MergeFields(name, "", "", ""))
  {
    var cs := [EmailColumn(email), TextColumn(name)];
    assert cs[1..] == [TextColumn(name)] && cs[1..][1..] == [];
    assert FirstOfKind(cs, TextKind) == name;
    FirstOfKindEmpty(cs, NumberKind);
    FirstOfKindEmpty(cs, DateKind);
    FirstOfKindEmpty(cs, LabelKind);
  }

  /** The record of an item with only an email column. */
  lemma ExtractEmailOnly(email: string)
    requires email != ""
    ensures Extract(Item([EmailColumn(email)])) == Subscriber(Some(email), NoFields)
  {
    assert [EmailColumn(email)][1..] == [];
  }

  /** A delivered upsert of a new member, in closed form. */
  lemma UpsertIntoAbsent(s: Remote, transport: nat -> Net, email: string, fields: MergeFields)
    requires transport(s.requests) == Deliver && transport(s.requests + 1) == Deliver
    requires SubscriberHash(email) !in s.members
    ensures UpsertStep(s, transport, email, fields) ==
      (SuccessNew(email, fields), Remote(s.members[SubscriberHash(email) := Member(email, StatusIfNew, fields)], s.requests + 2))
  {
  }

  /** An upsert whose lookup gets no response, in closed form. */
  lemma UpsertLookupThrows(s: Remote, transport: nat -> Net, email: string, fields: MergeFields)
    requires transport(s.requests).Drop? && transport(s.requests).failure.NoResponse?
    ensures UpsertStep(s, transport, email, fields) ==
      (Error(email, transport(s.requests).failure.message), Remote(s.members, s.requests + 1))
  {
  }

  /** Appending an item that yields `email` and `fields` appends its upsert. */
  lemma SnocEmailed(items: seq<Item>, y: Item, start: Remote, transport: nat -> Net, email: string, fields: MergeFields)
    requires Extract(y) == Subscriber(Some(email), fields)
    ensures var prev := SyncRun(items, start, transport);
      var (o, remote) := UpsertStep(prev.remote, transport, email, fields);
      SyncRun(items + [y], start, transport) == Run(prev.results + [o], remote, prev.pauses + 1)
  {
    SyncRunSnoc(items, y, start, transport);
  }

  /** A run over one item with an email, against the empty list, adds it as new. */
  lemma RunOneNew(x: Item, email: string, fields: MergeFields, transport: nat -> Net)
    requires Extract(x) == Subscriber(Some(email), fields)
    requires transport(0) == Deliver && transport(1) == Deliver
    ensures SyncRun([x], EmptyList, transport) ==
      Run([SuccessNew(email, fields)], Remote(map[SubscriberHash(email) := Member(email, StatusIfNew, fields)], 2), 1)
  {
    SnocEmailed([], x, EmptyList, transport, email, fields);
    assert [] + [x] == [x];
    UpsertIntoAbsent(EmptyList, transport, email, fields);
  }

  /** An item with an email and a text column, against a list without that member,
      gives `success_new` with NAME set and the other merge fields empty. */
  lemma NewMemberScenario(email: string, name: string, transport: nat -> Net)
    requires email != ""
    requires AllDelivered(transport)
    ensures SyncRun([Item([EmailColumn(email), TextColumn(name)])], EmptyList, transport).results
      == [SuccessNew(email, MergeFields(name, "", "", ""))]
  {
    ExtractEmailThenText(email, name);
    RunOneNew(Item([EmailColumn(email), TextColumn(name)]), email, MergeFields(name, "", "", ""), transport);
  }

  /** An item without an email is skipped with the reason "No email found" and makes
      no request. */
  lemma SkippedScenario(name: string, transport: nat -> Net)
    ensures SyncRun([Item([TextColumn(name)])], EmptyList, transport) == Run([Skipped("No email found")], EmptyList, 0)
  {
    var item := Item([TextColumn(name)]);
    assert [item][..0] == [];
    assert [TextColumn(name)][1..] == [];
    assert Extract(item).email == None;
  }

  /** Three items; the network fails the second item's lookup without a response.
      That item's outcome is an error with the failure's message; the other two are
      added as new members. */
  lemma LookupFailureScenario(a: string, b: string, c: string, message: string, transport: nat -> Net)
    requires a != "" && b != "" && c != ""
    requires SubscriberHash(a) != SubscriberHash(c)
    requires forall n | n != 2 :: transport(n) == Deliver
    requires transport(2).Drop? && transport(2).failure == NoResponse(message)
    ensures SyncRun([Item([EmailColumn(a)]), Item([EmailColumn(b)]), Item([EmailColumn(c)])], EmptyList, transport).results
      == [SuccessNew(a, NoFields), Error(b, message), SuccessNew(c, NoFields)]
  {
    var x, y, z := Item([EmailColumn(a)]), Item([EmailColumn(b)]), Item([EmailColumn(c)]);
    ExtractEmailOnly(a);
    ExtractEmailOnly(b);
    ExtractEmailOnly(c);
    var afterA := Remote(map[SubscriberHash(a) := Member(a, StatusIfNew, NoFields)], 2);
    RunOneNew(x, a, NoFields, transport);
    SnocEmailed([x], y, EmptyList, transport, b, NoFields);
    assert [x] + [y] == [x, y];
    UpsertLookupThrows(afterA, transport, b, NoFields);
    var afterB := Remote(afterA.members, 3);
    assert SyncRun([x, y], EmptyList, transport) == Run([SuccessNew(a, NoFields), Error(b, message)], afterB, 2);
    SnocEmailed([x, y], z, EmptyList, transport, c, NoFields);
    assert [x, y] + [z] == [x, y, z];
    UpsertIntoAbsent(afterB, transport, c, NoFields);
  }

  /** A write that the list carries out but whose answer is lost: the upsert reports
      `error`, yet the member is stored, so repeating it reports `no_changes`. */
  lemma LostWriteAnswerScenario(s: Remote, transport: nat -> Net, email: string, fields: MergeFields, message: string)
    requires SubscriberHash(email) !in s.members
    requires transport(s.requests) == Deliver
    requires transport(s.requests + 1) == Drop(NoResponse(message), true)
    requires transport(s.requests + 2) == Deliver && transport(s.requests + 3) == Deliver
    ensures var (o1, s1) := UpsertStep(s, transport, email, fields);
      var (o2, s2) := UpsertStep(s1, transport, email, fields);
      && o1 == Error(email, message)
      && SubscriberHash(email) in s1.members
      && o2 == NoChanges(email, fields)
  {
    UpsertWritesAfterLookup(s, transport, email, fields);
    UpsertIdempotent(s, transport, email, email, fields);
  }

  /** After a run over two items, the list holds the second item's merge fields
      under its key, whatever the first item wrote there. */
  lemma LastWriteWins(x: Item, y: Item, email: string, fields: MergeFields, transport: nat -> Net)
    requires Extract(y) == Subscriber(Some(email), fields)
    requires AllDelivered(transport)
    ensures var r := SyncRun([x, y], EmptyList, transport).remote;
      SubscriberHash(email) in r.members && r.members[SubscriberHash(email)].mergeFields == fields
  {
    SnocEmailed([x], y, EmptyList, transport, email, fields);
    assert [x] + [y] == [x, y];
    UpsertWritesAfterLookup(SyncRun([x], EmptyList, transport).remote, transport, email, fields);
  }

  /** Two items with the same email but different names: on a second run the first
      item is reported `updated` rather than `no_changes`, because each write replaces
      the other's merge fields. The rerun property needs `ConsistentFields`. */
  lemma RerunWithConflictingFields(email: string, name1: string, name2: string, transport: nat -> Net)
    requires email != "" && name1 != name2
    requires AllDelivered(transport)
    ensures var items := [Item([EmailColumn(email), TextColumn(name1)]), Item([EmailColumn(email), TextColumn(name2)])];
      var second := SyncRun(items, SyncRun(items, EmptyList, transport).remote, transport);
      second.results[0] == Updated(email, MergeFields(name1, "", "", ""), MergeFields(name2, "", "", ""))
  {
    var x, y := Item([EmailColumn(email), TextColumn(name1)]), Item([EmailColumn(email), TextColumn(name2)]);
    var f1, f2 := MergeFields(name1, "", "", ""), MergeFields(name2, "", "", "");
    ExtractEmailThenText(email, name1);
    ExtractEmailThenText(email, name2);
    LastWriteWins(x, y, email, f2, transport);
    var afterFirst := SyncRun([x, y], EmptyList, transport).remote;
    SyncOutcomeAt([x, y], afterFirst, transport, 0);
    assert [x, y][..0] == [];
    UpsertClassifies(afterFirst, transport, email, f1);
  }
}
