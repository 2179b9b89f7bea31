/** The mailing-list side of the sync: the member key, the remote member store of one
    list with its GET and PUT requests, and the service operations `getSubscriber` and
    `upsertSubscriberToMailchimp` built on them. */
module Mailchimp {
  import opened Wrappers
  import opened Extraction

  // ---------------------------------------------------------------------------
  // Member key

  /** `toLowerCase` on one character (ASCII letters only). */
  function LowerChar(c: char): char {
    if 'A' <= c <= 'Z' then (c as int + 32) as char else c
  }

  /** `toLowerCase` on a string, character by character. */
  function Lower(s: string): (r: string)
    ensures |r| == |s|
    ensures forall i | 0 <= i < |s| :: r[i] == LowerChar(s[i])
  {
    if s == [] then [] else [LowerChar(s[0])] + Lower(s[1..])
  }

  /** The md5 digest of a normalised email, kept symbolic: two digests are equal exactly
      when the digested strings are. */
  datatype Key = Md5(normalized: string)

  /** The member key used by both lookup and upsert: the digest of the lowercased email. */
  function SubscriberHash(email: string): Key {
    Md5(Lower(email))
  }

  /** Two emails address the same member exactly when they agree letter by letter once
      lowercased. */
  lemma SubscriberHashIgnoresCase(a: string, b: string)
    ensures SubscriberHash(a) == SubscriberHash(b) <==>
      |a| == |b| && forall i | 0 <= i < |a| :: LowerChar(a[i]) == LowerChar(b[i])
  {
    if |a| == |b| && forall i | 0 <= i < |a| :: LowerChar(a[i]) == LowerChar(b[i]) {
      assert Lower(a) == Lower(b);
    }
  }

  /** Lowercasing before the digest makes the key insensitive to the email's case. */
  lemma SubscriberHashOfLower(email: string)
    ensures SubscriberHash(Lower(email)) == SubscriberHash(email)
  {
    assert Lower(Lower(email)) == Lower(email);
  }

  // ---------------------------------------------------------------------------
  // The remote list

  /** A member as the list stores it and returns it on a GET. */
  datatype Member = Member(emailAddress: string, status: string, mergeFields: MergeFields)

  /** The body of the PUT: `email_address`, `status_if_new` and `merge_fields`. */
  datatype Payload = Payload(emailAddress: string, statusIfNew: string, mergeFields: MergeFields)

  const StatusIfNew: string := "subscribed"

  /** Why a request failed: an HTTP error status with its message, or no response. */
  datatype Failure = HttpStatus(code: int, message: string) | NoResponse(message: string)

  /** What the network does with one request: deliver it, or fail it. A failed request
      may still have been carried out by the list (`applied`), as when a PUT times out
      after the member was stored; for a GET that makes no difference. */
  datatype Net = Deliver | Drop(failure: Failure, applied: bool)

  /** The list carried out the request, whether or not its answer came back. */
  predicate Applied(net: Net) {
    net.Deliver? || net.applied
  }

  /** The answer to a GET of one member. */
  datatype GetReply = Found(member: Member) | Failed(failure: Failure)

  const NotFound: Failure := HttpStatus(404, "Request failed with status code 404")

  /** The list's answer to `GET /lists/{listId}/members/{hash}`. */
  function RemoteGet(members: map<Key, Member>, key: Key, net: Net): GetReply {
    match net
    case Drop(f, _) => Failed(f)
    case Deliver => if key in members then Found(members[key]) else Failed(NotFound)
  }

  /** The list after a delivered `PUT /lists/{listId}/members/{hash}`: the member under
      `key` is created or replaced; its status is `status_if_new` only when it is new. */
  function RemotePut(members: map<Key, Member>, key: Key, p: Payload): (r: map<Key, Member>)
    ensures key in r && r[key].emailAddress == p.emailAddress && r[key].mergeFields == p.mergeFields
    ensures r[key].status == if key in members then members[key].status else p.statusIfNew
    ensures r.Keys == members.Keys + {key}
    ensures forall k | k in members && k != key :: r[k] == members[k]
  {
    var status := if key in members then members[key].status else p.statusIfNew;
    members[key := Member(p.emailAddress, status, p.mergeFields)]
  }

  /** What `getSubscriber` makes of the GET's answer: the member when found, absent on a
      404, and the thrown error's message on any other failure. */
  function InterpretLookup(g: GetReply): (r: Result<Option<Member>, string>)
    ensures r == Ok(None) <==> g.Failed? && g.failure.HttpStatus? && g.failure.code == 404
    ensures r.Err? <==> g.Failed? && !(g.failure.HttpStatus? && g.failure.code == 404)
    ensures r.Err? ==> r.error == g.failure.message
    ensures g.Found? ==> r == Ok(Some(g.member))
  {
    match g
    case Found(m) => Ok(Some(m))
    case Failed(f) => if f.HttpStatus? && f.code == 404 then Ok(None) else Err(f.message)
  }

  /** Without a transport failure, lookup reports exactly what the list holds under the key. */
  lemma LookupReflectsStore(members: map<Key, Member>, email: string)
    ensures InterpretLookup(RemoteGet(members, SubscriberHash(email), Deliver)) ==
      Ok(if SubscriberHash(email) in members then Some(members[SubscriberHash(email)]) else None)
  {
  }

  // ---------------------------------------------------------------------------
  // Outcomes

  const NoEmailReason: string := "No email found"

  /** One entry of the sync results. `oldMergeFields` exists only for `Updated`, `error`
      only for `Error`, `reason` only for `Skipped`, whose email is null. */
  datatype Outcome =
    | SuccessNew(email: string, mergeFields: MergeFields)
    | Updated(email: string, mergeFields: MergeFields, oldMergeFields: MergeFields)
    | NoChanges(email: string, mergeFields: MergeFields)
    | Error(email: string, error: string)
    | Skipped(reason: string)
  {
    /** The `status` string of the result object. */
    function Status(): string {
      match this
      case SuccessNew(_, _) => "success_new"
      case Updated(_, _, _) => "updated"
      case NoChanges(_, _) => "no_changes"
      case Error(_, _) => "error"
      case Skipped(_) => "skipped"
    }

    /** The `email` of the result object; null for a skipped item. */
    function Email(): Option<string> {
      if Skipped? then None else Some(email)
    }
  }

  /** The after-the-fact classification of an upsert, from the member found before the
      write: none gives `success_new`; different merge fields give `updated` with the old
      ones; equal merge fields give `no_changes`. */
  function Classify(email: string, fields: MergeFields, prior: Option<Member>): (o: Outcome)
    ensures o.SuccessNew? <==> prior.None?
    ensures o.Updated? <==> prior.Some? && prior.value.mergeFields != fields
    ensures o.NoChanges? <==> prior.Some? && prior.value.mergeFields == fields
    ensures o.Updated? ==> o.oldMergeFields == prior.value.mergeFields
    ensures o.Email() == Some(email) && o.mergeFields == fields
  {
    match prior
    case None => SuccessNew(email, fields)
    case Some(m) => if m.mergeFields != fields then Updated(email, fields, m.mergeFields) else NoChanges(email, fields)
  }

  /** The classification in the result's `status` strings: `success_new` without a prior
      member, otherwise `updated` or `no_changes` as the prior merge fields differ or not. */
  lemma ClassifyStatus(email: string, fields: MergeFields, prior: Option<Member>)
    ensures Classify(email, fields, prior).Status() ==
      if prior.None? then "success_new"
      else if prior.value.mergeFields != fields then "updated"
      else "no_changes"
  {
  }

  // ---------------------------------------------------------------------------
  // Upsert, as a function of the list's state

  /** The observable state of a list: its members and how many requests it has served. */
  datatype Remote = Remote(members: map<Key, Member>, requests: nat)

  /** `upsertSubscriberToMailchimp` against a list in state `s`, whose `n`-th request the
      network treats as `transport(n)`: look the member up, then (if the lookup did not
      throw) write unconditionally, then classify; any failure becomes an `error` outcome. */
  function UpsertStep(s: Remote, transport: nat -> Net, email: string, fields: MergeFields): (Outcome, Remote) {
    var key := SubscriberHash(email);
    var looked := InterpretLookup(RemoteGet(s.members, key, transport(s.requests)));
    if looked.Err? then
      (Error(email, looked.error), Remote(s.members, s.requests + 1))
    else
      var written := RemotePut(s.members, key, Payload(email, StatusIfNew, fields));
      match transport(s.requests + 1)
      case Drop(f, applied) => (Error(email, f.message), Remote(if applied then written else s.members, s.requests + 2))
      case Deliver => (Classify(email, fields, looked.value), Remote(written, s.requests + 2))
  }

  /** The lookup succeeded: it did not fail with anything but a 404. */
  ghost predicate LookupSucceeds(s: Remote, transport: nat -> Net, email: string) {
    InterpretLookup(RemoteGet(s.members, SubscriberHash(email), transport(s.requests))).Ok?
  }

  /** The write is issued exactly when the lookup succeeded, whatever the classification,
      and it is issued once: one request when the lookup throws, two otherwise. When the
      list carried the write out (even if its answer was lost), the list afterwards holds
      the given email and merge fields under the key, and no other member changes;
      otherwise the members are as they were. */
  lemma UpsertWritesAfterLookup(s: Remote, transport: nat -> Net, email: string, fields: MergeFields)
    ensures var (o, s') := UpsertStep(s, transport, email, fields);
      var key := SubscriberHash(email);
      && s'.requests == s.requests + (if LookupSucceeds(s, transport, email) then 2 else 1)
      && (!(LookupSucceeds(s, transport, email) && Applied(transport(s.requests + 1))) ==> s'.members == s.members)
      && (LookupSucceeds(s, transport, email) && Applied(transport(s.requests + 1)) ==>
            && key in s'.members
            && s'.members[key].emailAddress == email
            && s'.members[key].mergeFields == fields
            && s'.members[key].status == (if key in s.members then s.members[key].status else "subscribed")
            && s'.members.Keys == s.members.Keys + {key}
            && forall k | k in s.members && k != key :: k in s'.members && s'.members[k] == s.members[k])
  {
  }

  /** When both requests are delivered the outcome is the classification against what
      the list held under the key before the write. */
  lemma UpsertClassifies(s: Remote, transport: nat -> Net, email: string, fields: MergeFields)
    requires transport(s.requests) == Deliver && transport(s.requests + 1) == Deliver
    ensures var (o, s') := UpsertStep(s, transport, email, fields);
      var key := SubscriberHash(email);
      && (o.SuccessNew? <==> key !in s.members)
      && (o.Updated? <==> key in s.members && s.members[key].mergeFields != fields)
      && (o.NoChanges? <==> key in s.members && s.members[key].mergeFields == fields)
      && (o.Updated? ==> o.oldMergeFields == s.members[key].mergeFields)
      && o.Email() == Some(email) && o.mergeFields == fields
  {
  }

  /** Any failure of the lookup (other than a 404) or of the write gives an `error`
      outcome carrying the email and the failure's message. A failed lookup leaves the
      members as they were; a failed write leaves them so only if the list did not carry
      it out. The upsert never yields anything but these four statuses. */
  lemma UpsertErrors(s: Remote, transport: nat -> Net, email: string, fields: MergeFields)
    ensures var (o, s') := UpsertStep(s, transport, email, fields);
      && !o.Skipped? && o.Email() == Some(email)
      && (o.Error? <==> !LookupSucceeds(s, transport, email) || transport(s.requests + 1).Drop?)
      && (o.Error? ==>
            s'.members == (if LookupSucceeds(s, transport, email) && Applied(transport(s.requests + 1))
                           then RemotePut(s.members, SubscriberHash(email), Payload(email, StatusIfNew, fields))
                           else s.members))
      && (!LookupSucceeds(s, transport, email) ==>
            o.error == RemoteGet(s.members, SubscriberHash(email), transport(s.requests)).failure.message)
      && (LookupSucceeds(s, transport, email) && transport(s.requests + 1).Drop? ==>
            o.error == transport(s.requests + 1).failure.message)
  {
  }

  /** Repeating an upsert whose write the list carried out (even if its answer was lost),
      with the same merge fields and under an email with the same key, yields `no_changes`
      when the repeat is delivered; with the very same email it leaves the list as it was. */
  lemma UpsertIdempotent(s: Remote, transport: nat -> Net, email: string, email': string, fields: MergeFields)
    requires LookupSucceeds(s, transport, email) && Applied(transport(s.requests + 1))
    requires transport(s.requests + 2) == Deliver && transport(s.requests + 3) == Deliver
    requires SubscriberHash(email') == SubscriberHash(email)
    ensures var (o1, s1) := UpsertStep(s, transport, email, fields);
      var (o2, s2) := UpsertStep(s1, transport, email', fields);
      && o2 == NoChanges(email', fields)
      && (email' == email ==> s2.members == s1.members)
  {
    var (o1, s1) := UpsertStep(s, transport, email, fields);
    UpsertWritesAfterLookup(s, transport, email, fields);
    assert transport(s1.requests) == Deliver && transport(s1.requests + 1) == Deliver;
    UpsertClassifies(s1, transport, email', fields);
  }

  // ---------------------------------------------------------------------------
  // The list as an object

  /** One mailing list (the `listId` of the requests), with its members and the network
      between it and the service. The network's treatment of each request is fixed in
      advance by `transport`, indexed by how many requests came before. */
  class MailingList {
    var members: map<Key, Member>
    var requests: nat
    const transport: nat -> Net

    constructor (members: map<Key, Member>, transport: nat -> Net)
      ensures this.members == members && requests == 0 && this.transport == transport
    {
      this.members := members;
      this.requests := 0;
      this.transport := transport;
    }

    function State(): Remote
      reads this
    {
      Remote(members, requests)
    }

    /** `axios.get` of the member under `key`. */
    method Get(key: Key) returns (reply: GetReply)
      modifies this
      ensures members == old(members) && requests == old(requests) + 1
      ensures reply == RemoteGet(members, key, transport(old(requests)))
    {
      reply := RemoteGet(members, key, transport(requests));
      requests := requests + 1;
    }

    /** `axios.put` of `payload` under `key`; the failure when it throws. A PUT that
        throws may still have been carried out by the list. */
    method Put(key: Key, payload: Payload) returns (failure: Option<Failure>)
      modifies this
      ensures requests == old(requests) + 1
      ensures failure.None? <==> transport(old(requests)) == Deliver
      ensures failure.Some? ==> failure.value == transport(old(requests)).failure
      ensures members == if Applied(transport(old(requests))) then RemotePut(old(members), key, payload) else old(members)
    {
      var net := transport(requests);
      requests := requests + 1;
      if Applied(net) {
        members := RemotePut(members, key, payload);
      }
      match net
      case Drop(f, _) =>
        failure := Some(f);
      case Deliver =>
        failure := None;
    }

    /** `getSubscriber`: the member under the lowercased email's key; absent on a 404;
        the error's message for any other failure. */
    method GetSubscriber(email: string) returns (r: Result<Option<Member>, string>)
      modifies this
      ensures members == old(members) && requests == old(requests) + 1
      ensures r == InterpretLookup(RemoteGet(members, SubscriberHash(email), transport(old(requests))))
    {
      var reply := Get(SubscriberHash(email));
      r := InterpretLookup(reply);
    }

    /** `upsertSubscriberToMailchimp`: look up, write unconditionally, classify; every
        failure becomes an `error` outcome and nothing is thrown or retried. */
    method UpsertSubscriber(email: string, fields: MergeFields) returns (o: Outcome)
      modifies this
      ensures (o, State()) == UpsertStep(old(State()), transport, email, fields)
    {
      var key := SubscriberHash(email);
      var payload := Payload(email, StatusIfNew, fields);
      var existing := GetSubscriber(email);
      if existing.Err? {
        return Error(email, existing.error);
      }
      var failure := Put(key, payload);
      if failure.Some? {
        return Error(email, failure.value.message);
      }
      o := Classify(email, fields, existing.value);
    }
  }
}
