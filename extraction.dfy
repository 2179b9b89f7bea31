/** How one board item's column values become a subscriber record: an optional email
    and the four merge fields NAME, PHONE, FDATE and STATUS, each taken from the first
    column value that carries a non-empty value of its kind. */
module Extraction {
  import opened Wrappers

  /** One entry of an item's `column_values`. The board query asks each column for its
      `date`, `number`, `text`, `label` (here `statusLabel`) and `email`; a field the column does not carry
      is "" here, since `undefined`, `null` and "" are all falsy to the extraction and
      are treated alike. A column value may carry several kinds at once. */
  datatype ColumnValue = ColumnValue(date: string, number: string, text: string, statusLabel: string, email: string)

  /** One board item: its column values, in the order the board returned them. */
  datatype Item = Item(columnValues: seq<ColumnValue>)

  /** The kinds of value the extraction looks for. */
  datatype Kind = DateKind | NumberKind | TextKind | LabelKind | EmailKind

  function ValueOf(c: ColumnValue, k: Kind): string {
    match k
    case DateKind => c.date
    case NumberKind => c.number
    case TextKind => c.text
    case LabelKind => c.statusLabel
    case EmailKind => c.email
  }

  /** The merge fields sent to the mailing list: NAME, PHONE, FDATE and STATUS. */
  datatype MergeFields = MergeFields(name: string, phone: string, fDate: string, status: string)

  /** What an item yields: the email, absent when the item has none, and its merge fields. */
  datatype Subscriber = Subscriber(email: Option<string>, mergeFields: MergeFields)

  /** `v` is the value of kind `k` of the first column value carrying a non-empty one,
      or "" when no column value does: the meaning of `find(col => col.k)?.k || ""`. */
  ghost predicate IsFirstOfKind(cs: seq<ColumnValue>, k: Kind, v: string) {
    if v == "" then
      forall i | 0 <= i < |cs| :: ValueOf(cs[i], k) == ""
    else
      exists i | 0 <= i < |cs| :: ValueOf(cs[i], k) == v && forall j | 0 <= j < i :: ValueOf(cs[j], k) == ""
  }

  /** At most one value is the first of its kind. */
  lemma IsFirstOfKindUnique(cs: seq<ColumnValue>, k: Kind, v: string, w: string)
    requires IsFirstOfKind(cs, k, v) && IsFirstOfKind(cs, k, w)
    ensures v == w
  {
    if v != "" && w != "" {
      var i :| 0 <= i < |cs| && ValueOf(cs[i], k) == v && forall j | 0 <= j < i :: ValueOf(cs[j], k) == "";
      var i' :| 0 <= i' < |cs| && ValueOf(cs[i'], k) == w && forall j | 0 <= j < i' :: ValueOf(cs[j], k) == "";
      assert i == i';
    }
  }

  /** If the tail's first value of kind `k` is `v` and the head carries none, `v` is
      also the first of the whole sequence. */
  lemma IsFirstOfKindBehindEmpty(cs: seq<ColumnValue>, k: Kind, v: string)
    requires cs != [] && ValueOf(cs[0], k) == ""
    requires IsFirstOfKind(cs[1..], k, v)
    ensures IsFirstOfKind(cs, k, v)
  {
    if v != "" {
      var i :| 0 <= i < |cs[1..]| && ValueOf(cs[1..][i], k) == v && forall j | 0 <= j < i :: ValueOf(cs[1..][j], k) == "";
      assert ValueOf(cs[i + 1], k) == v;
      forall j | 0 <= j < i + 1 ensures ValueOf(cs[j], k) == "" {
        if j > 0 {
          assert cs[j] == cs[1..][j - 1];
        }
      }
    } else {
      forall i | 0 <= i < |cs| ensures ValueOf(cs[i], k) == "" {
        if i > 0 {
          assert cs[i] == cs[1..][i - 1];
        }
      }
    }
  }

  /** The first non-empty value of kind `k`, or "" when there is none. */
  function FirstOfKind(cs: seq<ColumnValue>, k: Kind): (v: string)
    ensures IsFirstOfKind(cs, k, v)
  {
    if cs == [] then ""
    else if ValueOf(cs[0], k) != "" then ValueOf(cs[0], k)
    else
      var v := FirstOfKind(cs[1..], k);
      IsFirstOfKindBehindEmpty(cs, k, v);
      v
  }

  /** The extraction yields "" exactly when no column value carries a value of kind `k`. */
  lemma FirstOfKindEmpty(cs: seq<ColumnValue>, k: Kind)
    ensures FirstOfKind(cs, k) == "" <==> forall i | 0 <= i < |cs| :: ValueOf(cs[i], k) == ""
  {
    if forall i | 0 <= i < |cs| :: ValueOf(cs[i], k) == "" {
      IsFirstOfKindUnique(cs, k, FirstOfKind(cs, k), "");
    }
  }

  /** Values of kind `k` after the first one are ignored: appending column values
      changes the result only when the prefix carries no value of that kind. */
  lemma {:induction false} FirstOfKindAppend(p: seq<ColumnValue>, q: seq<ColumnValue>, k: Kind)
    ensures FirstOfKind(p + q, k) == if FirstOfKind(p, k) != "" then FirstOfKind(p, k) else FirstOfKind(q, k)
  {
    if p == [] {
      assert p + q == q;
    } else {
      assert (p + q)[0] == p[0];
      assert (p + q)[1..] == p[1..] + q;
      FirstOfKindAppend(p[1..], q, k);
    }
  }

  /** The extraction of `updateMailchimp`: email and merge fields by first match. */
  function Extract(item: Item): Subscriber {
    var cs := item.columnValues;
    var email := FirstOfKind(cs, EmailKind);
    Subscriber(
      if email == "" then None else Some(email),
      MergeFields(FirstOfKind(cs, TextKind), FirstOfKind(cs, NumberKind), FirstOfKind(cs, DateKind), FirstOfKind(cs, LabelKind)))
  }

  /** The email is the first non-empty `email`, absent exactly when there is none;
      NAME, PHONE, FDATE and STATUS are the first non-empty `text`, `number`, `date`
      and `label`, "" when there is none. */
  lemma ExtractFirstMatch(item: Item)
    ensures var r := Extract(item);
      && (r.email.None? <==> IsFirstOfKind(item.columnValues, EmailKind, ""))
      && (r.email.Some? ==> r.email.value != "" && IsFirstOfKind(item.columnValues, EmailKind, r.email.value))
      && IsFirstOfKind(item.columnValues, TextKind, r.mergeFields.name)
      && IsFirstOfKind(item.columnValues, NumberKind, r.mergeFields.phone)
      && IsFirstOfKind(item.columnValues, DateKind, r.mergeFields.fDate)
      && IsFirstOfKind(item.columnValues, LabelKind, r.mergeFields.status)
  {
    FirstOfKindEmpty(item.columnValues, EmailKind);
  }

  /** A column value that carries several kinds contributes to each of them: when it
      comes first, every non-empty value it carries is taken. */
  lemma ExtractLeadingColumn(c: ColumnValue, rest: seq<ColumnValue>)
    ensures var r := Extract(Item([c] + rest));
      && (c.email != "" ==> r.email == Some(c.email))
      && (c.text != "" ==> r.mergeFields.name == c.text)
      && (c.number != "" ==> r.mergeFields.phone == c.number)
      && (c.date != "" ==> r.mergeFields.fDate == c.date)
      && (c.statusLabel != "" ==> r.mergeFields.status == c.statusLabel)
  {
  }
}
