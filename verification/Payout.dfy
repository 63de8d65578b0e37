/** Which redeem intent a returned receipt is bound to: by the payout commitment in the return
    spend, or, without one, by the legacy rule. */
module Payout {
  import opened ByteStrings
  import opened Store
  import Receipt

  /** An intent with its id, as listIntents hands it out. */
  datatype Listed = Listed(id: IntentId, intent: Intent)

  /** Object.values: every intent of the store once, in an order of insertion that the store's
      map does not keep. */
  ghost predicate IsListing(db: Db, intents: seq<Listed>) {
    && (forall x :: x in intents <==> x.id in db.intents && db.intents[x.id] == x.intent)
    && (forall i, j :: 0 <= i < j < |intents| ==> intents[i].id != intents[j].id)
  }

  // ---- stable sorting ----

  /** Before the first element that is not newer: stable when inserting from the back. */
  function InsertNewest(x: Listed, s: seq<Listed>): (r: seq<Listed>)
    ensures multiset(r) == multiset{x} + multiset(s)
  {
    if s == [] || s[0].intent.createdAt <= x.intent.createdAt then
      assert multiset([x] + s) == multiset{x} + multiset(s);
      [x] + s
    else
      assert s == [s[0]] + s[1..];
      [s[0]] + InsertNewest(x, s[1..])
  }

  /** listIntents: newest first, in insertion order where times are equal. */
  function NewestFirst(s: seq<Listed>): (r: seq<Listed>)
    ensures multiset(r) == multiset(s)
  {
    if s == [] then []
    else
      assert s == [s[0]] + s[1..];
      InsertNewest(s[0], NewestFirst(s[1..]))
  }

  function Filter(p: Listed -> bool, s: seq<Listed>): seq<Listed> {
    if s == [] then [] else (if p(s[0]) then [s[0]] else []) + Filter(p, s[1..])
  }

  lemma FilterStep(p: Listed -> bool, x: Listed, s: seq<Listed>)
    ensures Filter(p, []) == []
    ensures Filter(p, [x] + s) == if p(x) then [x] + Filter(p, s) else Filter(p, s)
  {
    assert ([x] + s)[1..] == s;
  }

  lemma {:induction false} FilterIn(p: Listed -> bool, s: seq<Listed>, x: Listed)
    ensures x in Filter(p, s) <==> x in s && p(x)
  {
    if s != [] {
      FilterIn(p, s[1..], x);
      assert s == [s[0]] + s[1..];
    }
  }

  lemma InsertStep(x: Listed, y: Listed, s: seq<Listed>)
    ensures InsertNewest(x, []) == [x]
    ensures InsertNewest(x, [y] + s) ==
            if y.intent.createdAt <= x.intent.createdAt then [x] + ([y] + s) else [y] + InsertNewest(x, s)
  {
    assert ([y] + s)[1..] == s;
  }

  lemma SortStep(x: Listed, s: seq<Listed>)
    ensures NewestFirst([]) == []
    ensures NewestFirst([x] + s) == InsertNewest(x, NewestFirst(s))
  {
    assert ([x] + s)[1..] == s;
  }

  predicate NewestSorted(s: seq<Listed>) {
    forall i, j :: 0 <= i < j < |s| ==> s[i].intent.createdAt >= s[j].intent.createdAt
  }

  lemma {:induction false} InsertKeepsNewest(x: Listed, s: seq<Listed>)
    requires NewestSorted(s)
    ensures NewestSorted(InsertNewest(x, s))
  {
    if s != [] && s[0].intent.createdAt > x.intent.createdAt {
      InsertKeepsNewest(x, s[1..]);
      var r := InsertNewest(x, s[1..]);
      forall j | 0 <= j < |r| ensures s[0].intent.createdAt >= r[j].intent.createdAt {
        assert r[j] in multiset(r);
        if r[j] != x {
          assert r[j] in s[1..];
        }
      }
    }
  }

  lemma {:induction false} NewestFirstSorts(s: seq<Listed>)
    ensures NewestSorted(NewestFirst(s))
  {
    if s != [] {
      NewestFirstSorts(s[1..]);
      InsertKeepsNewest(s[0], NewestFirst(s[1..]));
    }
  }

  lemma {:induction false} FilterAppend(p: Listed -> bool, a: seq<Listed>, b: seq<Listed>)
    ensures Filter(p, a + b) == Filter(p, a) + Filter(p, b)
  {
    hide Filter;
    if a == [] {
      assert a + b == b;
      FilterNil(p);
    } else {
      var x, rest := a[0], a[1..];
      FilterAppend(p, rest, b);
      FilterStep(p, x, rest + b);
      FilterStep(p, x, rest);
      AppendAfterHead(x, rest, b);
      AppendAfterHead(x, Filter(p, rest), Filter(p, b));
      assert a == [x] + rest;
    }
  }

  lemma AppendAfterHead(x: Listed, a: seq<Listed>, b: seq<Listed>)
    ensures [x] + (a + b) == ([x] + a) + b
  {
  }

  lemma FilterNil(p: Listed -> bool)
    ensures Filter(p, []) == []
  {
  }

  /** The head of a newest-first list that passes is where an insertion goes before. */
  lemma InsertAtFront(p: Listed -> bool, x: Listed, s: seq<Listed>)
    requires NewestSorted(s) && (s != [] ==> s[0].intent.createdAt <= x.intent.createdAt)
    ensures InsertNewest(x, Filter(p, s)) == [x] + Filter(p, s)
  {
    hide Filter, InsertNewest;
    var f := Filter(p, s);
    InsertStep(x, x, []);
    if f == [] {
      assert [x] + f == [x];
    } else {
      FilterIn(p, s, f[0]);
      var k :| 0 <= k < |s| && s[k] == f[0];
      assert s[0].intent.createdAt >= s[k].intent.createdAt;
      assert f == [f[0]] + f[1..];
      InsertStep(x, f[0], f[1..]);
    }
  }

  /** Elements that do not pass have no say in where the others go. */
  lemma {:induction false} FilterInsert(p: Listed -> bool, x: Listed, s: seq<Listed>)
    requires NewestSorted(s)
    ensures Filter(p, InsertNewest(x, s)) == if p(x) then InsertNewest(x, Filter(p, s)) else Filter(p, s)
  {
    hide Filter, InsertNewest;
    if s == [] {
      InsertStep(x, x, []);
      FilterStep(p, x, []);
      assert [x] + [] == [x];
    } else {
      var y, rest := s[0], s[1..];
      assert s == [y] + rest;
      InsertStep(x, y, rest);
      FilterStep(p, x, s);
      FilterStep(p, y, rest);
      if y.intent.createdAt <= x.intent.createdAt {
        InsertAtFront(p, x, s);
      } else {
        FilterInsert(p, x, rest);
        FilterStep(p, y, InsertNewest(x, rest));
        InsertStep(x, y, Filter(p, rest));
      }
    }
  }

  /** Filtering and stable sorting commute. */
  lemma {:induction false} FilterSort(p: Listed -> bool, s: seq<Listed>)
    ensures Filter(p, NewestFirst(s)) == NewestFirst(Filter(p, s))
  {
    hide Filter, NewestFirst, InsertNewest;
    if s == [] {
      FilterNil(p);
      SortNil();
    } else {
      var x, rest := s[0], s[1..];
      assert s == [x] + rest;
      FilterSort(p, rest);
      NewestFirstSorts(rest);
      SortStep(x, rest);
      FilterInsert(p, x, NewestFirst(rest));
      FilterStep(p, x, rest);
      SortStep(x, Filter(p, rest));
    }
  }

  lemma SortNil()
    ensures NewestFirst([]) == []
  {
  }

  // ---- the binding ----

  /** Open redeem intents of the receipt's holder. */
  predicate IsCandidate(holder: string, x: Listed) {
    x.intent.kind == RedeemIntent && x.intent.ssqAddress == holder
    && (x.intent.status == AwaitingReceipt || x.intent.status == Expired)
  }

  function Candidates(holder: string): Listed -> bool {
    (x: Listed) => IsCandidate(holder, x)
  }

  predicate CommitsTo(digest: string -> Bytes, commit: string, x: Listed) {
    x.intent.btcAddress.Some? && Receipt.PayoutCommit(digest, x.intent.btcAddress.value) == commit
  }

  function First(p: Listed -> bool, s: seq<Listed>): Option<Listed> {
    if s == [] then None else if p(s[0]) then Some(s[0]) else First(p, s[1..])
  }

  function HasStatus(status: RedeemStatus): Listed -> bool {
    (x: Listed) => x.intent.status == status
  }

  /** The oldest, the first listed among equals. */
  function Oldest(s: seq<Listed>): Option<Listed> {
    if s == [] then None
    else
      var rest := Oldest(s[1..]);
      if rest.Some? && rest.value.intent.createdAt < s[0].intent.createdAt then rest else Some(s[0])
  }

  function Head(s: seq<Listed>): Option<Listed> {
    if s == [] then None else Some(s[0])
  }

  /** The commitment of a return spend, if it carries one. */
  function CommitmentOf(tag: Option<Receipt.Tag>): Option<string> {
    if tag.Some? && tag.value.op == Receipt.Redeem && tag.value.payoutCommit.Some? && tag.value.payoutCommit.value != ""
    then tag.value.payoutCommit else None
  }

  /** The choice in onReceiptReturned; `intents` are the store's values. */
  function Choose(digest: string -> Bytes, intents: seq<Listed>, holder: string,
                  tag: Option<Receipt.Tag>): Option<Listed> {
    var candidates := Filter(Candidates(holder), NewestFirst(intents));
    var commit := CommitmentOf(tag);
    if commit.Some? then
      First(x => CommitsTo(digest, commit.value, x), candidates)
    else
      var open := Oldest(Filter(HasStatus(AwaitingReceipt), candidates));
      if open.Some? then open else Head(NewestFirst(Filter(HasStatus(Expired), candidates)))
  }

  /** The candidates that registered an address with this commitment. */
  function Matches(digest: string -> Bytes, holder: string, commit: string): Listed -> bool {
    (x: Listed) => IsCandidate(holder, x) && CommitsTo(digest, commit, x)
  }

  lemma {:induction false} FirstIsHead(p: Listed -> bool, q: Listed -> bool, both: Listed -> bool, s: seq<Listed>)
    requires forall x :: both(x) <==> p(x) && q(x)
    ensures First(q, Filter(p, s)) == Head(Filter(both, s))
  {
    hide Filter;
    if s == [] {
      FilterNil(p);
      FilterNil(both);
    } else {
      FirstIsHead(p, q, both, s[1..]);
      assert s == [s[0]] + s[1..];
      FilterStep(p, s[0], s[1..]);
      FilterStep(both, s[0], s[1..]);
      assert ([s[0]] + Filter(p, s[1..]))[1..] == Filter(p, s[1..]);
    }
  }

  lemma NewestIsHead(s: seq<Listed>, x: Listed)
    requires x in s
    ensures NewestFirst(s) != [] && NewestFirst(s)[0] in s
    ensures NewestFirst(s)[0].intent.createdAt >= x.intent.createdAt
  {
    hide NewestFirst;
    var sorted := NewestFirst(s);
    NewestFirstSorts(s);
    assert x in multiset(sorted);
    var k :| 0 <= k < |sorted| && sorted[k] == x;
    assert sorted[0] in multiset(sorted);
  }

  lemma NewestIsGreatest(s: seq<Listed>)
    ensures Head(NewestFirst(s)).Some? <==> s != []
    ensures forall x :: x in s ==> Head(NewestFirst(s)).value.intent.createdAt >= x.intent.createdAt
    ensures Head(NewestFirst(s)).Some? ==> Head(NewestFirst(s)).value in s
  {
    hide NewestFirst;
    assert |NewestFirst(s)| == |multiset(NewestFirst(s))| == |s|;
    forall x | x in s ensures NewestFirst(s)[0].intent.createdAt >= x.intent.createdAt {
      NewestIsHead(s, x);
    }
    if s != [] {
      NewestIsHead(s, s[0]);
    }
  }

  /** With a commitment, the choice is the newest of the matching registrations. */
  lemma SecureChoice(digest: string -> Bytes, intents: seq<Listed>, holder: string, tag: Option<Receipt.Tag>)
    requires CommitmentOf(tag).Some?
    ensures Choose(digest, intents, holder, tag) ==
            Head(NewestFirst(Filter(Matches(digest, holder, CommitmentOf(tag).value), intents)))
  {
    var commit := CommitmentOf(tag).value;
    var both := Matches(digest, holder, commit);
    FirstIsHead(Candidates(holder), x => CommitsTo(digest, commit, x), both, NewestFirst(intents));
    FilterSort(both, intents);
  }

  /** The paid address has the commitment of the return spend, and nothing is bound only when
      no open registration of the holder has it. */
  lemma PaidAddressIsCommitted(digest: string -> Bytes, intents: seq<Listed>, holder: string, tag: Option<Receipt.Tag>)
    requires CommitmentOf(tag).Some?
    ensures var chosen := Choose(digest, intents, holder, tag);
            && (chosen.Some? ==> && chosen.value in intents && IsCandidate(holder, chosen.value)
                                 && chosen.value.intent.btcAddress.Some?
                                 && Receipt.PayoutCommit(digest, chosen.value.intent.btcAddress.value)
                                 == CommitmentOf(tag).value)
            && (chosen.None? <==> forall x :: x in intents && IsCandidate(holder, x) ==>
                                              !CommitsTo(digest, CommitmentOf(tag).value, x))
            && (chosen.Some? ==> forall x :: x in intents && IsCandidate(holder, x)
                                             && CommitsTo(digest, CommitmentOf(tag).value, x) ==>
                                               chosen.value.intent.createdAt >= x.intent.createdAt)
  {
    hide Choose, Filter, NewestFirst;
    SecureChoice(digest, intents, holder, tag);
    var m := Filter(Matches(digest, holder, CommitmentOf(tag).value), intents);
    if m != [] {
      var sorted := NewestFirst(m);
      assert |sorted| == |multiset(sorted)| == |m|;
      assert sorted[0] in multiset(sorted);
      FilterIn(Matches(digest, holder, CommitmentOf(tag).value), intents, sorted[0]);
    }
    forall x | x in intents && IsCandidate(holder, x)
      ensures m == [] ==> !CommitsTo(digest, CommitmentOf(tag).value, x)
      ensures CommitsTo(digest, CommitmentOf(tag).value, x) ==> x in m
    {
      FilterIn(Matches(digest, holder, CommitmentOf(tag).value), intents, x);
    }
    SortNil();
    NewestIsGreatest(m);
  }

  /** Registrations with other commitments, wherever and however many, never change the choice:
      it is the same for any two stores that agree on the matching ones. */
  lemma OtherRegistrationsDoNotMatter(digest: string -> Bytes, a: seq<Listed>, b: seq<Listed>, holder: string,
                                      tag: Option<Receipt.Tag>)
    requires CommitmentOf(tag).Some?
    requires Filter(Matches(digest, holder, CommitmentOf(tag).value), a) ==
             Filter(Matches(digest, holder, CommitmentOf(tag).value), b)
    ensures Choose(digest, a, holder, tag) == Choose(digest, b, holder, tag)
  {
    SecureChoice(digest, a, holder, tag);
    SecureChoice(digest, b, holder, tag);
  }

  /** In particular one that is added anywhere. */
  lemma AddedRegistrationDoesNotMatter(digest: string -> Bytes, a: seq<Listed>, x: Listed, b: seq<Listed>,
                                       holder: string, tag: Option<Receipt.Tag>)
    requires CommitmentOf(tag).Some?
    requires !CommitsTo(digest, CommitmentOf(tag).value, x)
    ensures Choose(digest, a + [x] + b, holder, tag) == Choose(digest, a + b, holder, tag)
  {
    hide Choose, Filter, NewestFirst;
    var p := Matches(digest, holder, CommitmentOf(tag).value);
    FilterAppend(p, a + [x], b);
    FilterAppend(p, a, [x]);
    FilterAppend(p, a, b);
    FilterStep(p, x, []);
    assert [x] + [] == [x];
    OtherRegistrationsDoNotMatter(digest, a + [x] + b, a + b, holder, tag);
  }

  /** The legacy rule is different: an older registration of another address takes the payout. */
  lemma LegacyChoiceDependsOnOthers(digest: string -> Bytes, mine: Listed, other: Listed, holder: string)
    requires IsCandidate(holder, mine) && IsCandidate(holder, other)
    requires mine.intent.status == AwaitingReceipt && other.intent.status == AwaitingReceipt
    requires other.intent.createdAt < mine.intent.createdAt
    ensures Choose(digest, [mine], holder, None) == Some(mine)
    ensures Choose(digest, [mine, other], holder, None) == Some(other)
  {
    hide Filter, NewestFirst, InsertNewest;
    var p, awaiting := Candidates(holder), HasStatus(AwaitingReceipt);
    assert [mine] + [] == [mine] && [other] + [] == [other];
    SortStep(mine, []);
    InsertStep(mine, mine, []);
    SortStep(other, []);
    InsertStep(other, other, []);
    SortStep(mine, [other]);
    InsertStep(mine, other, []);
    FilterStep(p, mine, []);
    FilterStep(p, other, []);
    FilterStep(p, mine, [other]);
    FilterStep(awaiting, mine, []);
    FilterStep(awaiting, other, []);
    FilterStep(awaiting, mine, [other]);
    assert [mine][1..] == [] && [other][1..] == [] && ([mine] + [other])[1..] == [other];
    assert [mine] + [other] == [mine, other];
    assert Oldest([other]) == Some(other);
  }

  lemma {:induction false} OldestIsLeast(s: seq<Listed>)
    ensures Oldest(s).Some? <==> s != []
    ensures Oldest(s).Some? ==>
              && Oldest(s).value in s
              && forall x :: x in s ==> Oldest(s).value.intent.createdAt <= x.intent.createdAt
  {
    if s != [] {
      OldestIsLeast(s[1..]);
      assert s == [s[0]] + s[1..];
    }
  }

  /** A registration of the holder with that status. */
  predicate IsOpen(holder: string, status: RedeemStatus, x: Listed) {
    x.intent.kind == RedeemIntent && x.intent.ssqAddress == holder && x.intent.status == status
  }

  lemma OpenOnes(intents: seq<Listed>, holder: string, status: RedeemStatus, x: Listed)
    requires status == AwaitingReceipt || status == Expired
    ensures x in Filter(HasStatus(status), Filter(Candidates(holder), NewestFirst(intents))) <==>
            x in intents && IsOpen(holder, status, x)
  {
    hide Filter, NewestFirst;
    FilterIn(HasStatus(status), Filter(Candidates(holder), NewestFirst(intents)), x);
    FilterIn(Candidates(holder), NewestFirst(intents), x);
    assert x in intents <==> x in multiset(NewestFirst(intents));
  }

  /** Without a commitment: the oldest registration that awaits a receipt; when there is none, the
      newest expired one; and when there is none of either, nothing. */
  lemma LegacyChoice(digest: string -> Bytes, intents: seq<Listed>, holder: string, tag: Option<Receipt.Tag>)
    requires CommitmentOf(tag).None?
    ensures var chosen := Choose(digest, intents, holder, tag);
            if exists x :: x in intents && IsOpen(holder, AwaitingReceipt, x) then
              && chosen.Some? && chosen.value in intents && IsOpen(holder, AwaitingReceipt, chosen.value)
              && forall x :: x in intents && IsOpen(holder, AwaitingReceipt, x) ==>
                               chosen.value.intent.createdAt <= x.intent.createdAt
            else if exists x :: x in intents && IsOpen(holder, Expired, x) then
              && chosen.Some? && chosen.value in intents && IsOpen(holder, Expired, chosen.value)
              && forall x :: x in intents && IsOpen(holder, Expired, x) ==>
                               chosen.value.intent.createdAt >= x.intent.createdAt
            else chosen.None?
  {
    var candidates := Filter(Candidates(holder), NewestFirst(intents));
    var awaiting, expired := Filter(HasStatus(AwaitingReceipt), candidates), Filter(HasStatus(Expired), candidates);
    assert Choose(digest, intents, holder, tag)
        == if Oldest(awaiting).Some? then Oldest(awaiting) else Head(NewestFirst(expired));
    hide Choose, Filter, NewestFirst, Oldest, Head, IsOpen;
    forall x ensures x in awaiting <==> x in intents && IsOpen(holder, AwaitingReceipt, x) {
      OpenOnes(intents, holder, AwaitingReceipt, x);
    }
    forall x ensures x in expired <==> x in intents && IsOpen(holder, Expired, x) {
      OpenOnes(intents, holder, Expired, x);
    }
    OldestIsLeast(awaiting);
    NewestIsGreatest(expired);
    assert awaiting != [] ==> awaiting[0] in awaiting;
    assert expired != [] ==> expired[0] in expired;
  }

  /** Which intents may be bound to a returned receipt. */
  predicate BindsTo(db: Db, key: Outpoint, id: IntentId) {
    && key in db.mints && db.mints[key].status == Minted
    && id in db.intents && db.intents[id].kind == RedeemIntent
    && db.intents[id].ssqAddress == db.mints[key].ssqAddress
    && (db.intents[id].status == AwaitingReceipt || db.intents[id].status == Expired)
  }

  /** Whatever is chosen may be bound to the record, and with a commitment its address has it. */
  lemma ChosenMayBind(digest: string -> Bytes, db: Db, intents: seq<Listed>, key: Outpoint, tag: Option<Receipt.Tag>)
    requires key in db.mints && db.mints[key].status == Minted && IsListing(db, intents)
    ensures var chosen := Choose(digest, intents, db.mints[key].ssqAddress, tag);
            chosen.Some? ==>
              && BindsTo(db, key, chosen.value.id) && chosen.value.intent == db.intents[chosen.value.id]
              && (CommitmentOf(tag).Some? ==> CommitsTo(digest, CommitmentOf(tag).value, chosen.value))
  {
    hide Choose;
    var holder := db.mints[key].ssqAddress;
    if Choose(digest, intents, holder, tag).Some? {
      ChosenIsCandidate(digest, intents, holder, tag);
      if CommitmentOf(tag).Some? {
        PaidAddressIsCommitted(digest, intents, holder, tag);
      }
    }
  }

  /** A registration that is newer than all others and the only open one is chosen, by either
      rule, if its address has the commitment that the return spend may carry. */
  lemma NewestIsChosen(digest: string -> Bytes, db: Db, intents: seq<Listed>, id: IntentId, holder: string,
                       tag: Option<Receipt.Tag>)
    requires IsListing(db, intents) && id in db.intents
    requires var x := Listed(id, db.intents[id]);
             && IsCandidate(holder, x) && x.intent.status == AwaitingReceipt
             && (CommitmentOf(tag).Some? ==> CommitsTo(digest, CommitmentOf(tag).value, x))
    requires forall other :: other in db.intents && other != id ==>
                               && db.intents[other].createdAt < db.intents[id].createdAt
                               && db.intents[other].status != AwaitingReceipt
    ensures Choose(digest, intents, holder, tag) == Some(Listed(id, db.intents[id]))
  {
    var x := Listed(id, db.intents[id]);
    var sorted := NewestFirst(intents);
    assert x in intents;
    if CommitmentOf(tag).Some? {
      hide Choose, Filter, NewestFirst;
      var p := Matches(digest, holder, CommitmentOf(tag).value);
      SecureChoice(digest, intents, holder, tag);
      FilterIn(p, intents, x);
      NewestIsHead(Filter(p, intents), x);
      FilterIn(p, intents, NewestFirst(Filter(p, intents))[0]);
    } else {
      hide Filter, NewestFirst;
      var candidates := Filter(Candidates(holder), sorted);
      var open := Filter(HasStatus(AwaitingReceipt), candidates);
      assert x in multiset(sorted);
      FilterIn(Candidates(holder), sorted, x);
      FilterIn(HasStatus(AwaitingReceipt), candidates, x);
      OldestIsIn(open);
      var y := Oldest(open).value;
      FilterIn(HasStatus(AwaitingReceipt), candidates, y);
      FilterIn(Candidates(holder), sorted, y);
      assert y in multiset(sorted) && y in intents;
    }
  }

  /** Every store can be listed. */
  lemma {:induction false} ListingExists(db: Db) returns (intents: seq<Listed>)
    ensures IsListing(db, intents)
    decreases |db.intents|
  {
    if db.intents == map[] {
      intents := [];
    } else {
      var id :| id in db.intents;
      var rest := db.(intents := db.intents - {id});
      assert |rest.intents| < |db.intents| by { SmallerMap(db.intents, id); }
      var others := ListingExists(rest);
      intents := others + [Listed(id, db.intents[id])];
      forall i, j | 0 <= i < j < |intents| ensures intents[i].id != intents[j].id {
        if j == |others| {
          assert others[i] in others;
        }
      }
    }
  }

  lemma SmallerMap(m: map<IntentId, Intent>, id: IntentId)
    requires id in m
    ensures |m - {id}| < |m|
  {
    assert (m - {id}).Keys == m.Keys - {id};
    assert |(m - {id}).Keys| == |m - {id}| && |m.Keys| == |m|;
  }

  lemma ChosenIsCandidate(digest: string -> Bytes, intents: seq<Listed>, holder: string, tag: Option<Receipt.Tag>)
    requires Choose(digest, intents, holder, tag).Some?
    ensures var x := Choose(digest, intents, holder, tag).value; x in intents && IsCandidate(holder, x)
  {
    hide Filter, NewestFirst;
    var x := Choose(digest, intents, holder, tag).value;
    var sorted := NewestFirst(intents);
    var candidates := Filter(Candidates(holder), sorted);
    var expired := Filter(HasStatus(Expired), candidates);
    var commit := CommitmentOf(tag);
    if commit.Some? {
      FirstIsIn(y => CommitsTo(digest, commit.value, y), candidates);
    }
    OldestIsIn(Filter(HasStatus(AwaitingReceipt), candidates));
    FilterIn(HasStatus(AwaitingReceipt), candidates, x);
    HeadIsIn(expired);
    FilterIn(HasStatus(Expired), candidates, x);
    FilterIn(Candidates(holder), sorted, x);
    assert x in multiset(sorted);
  }

  lemma HeadIsIn(s: seq<Listed>)
    ensures Head(NewestFirst(s)).Some? ==> Head(NewestFirst(s)).value in s
  {
    if NewestFirst(s) != [] {
      assert NewestFirst(s)[0] in multiset(NewestFirst(s));
    }
  }

  lemma {:induction false} FirstIsIn(p: Listed -> bool, s: seq<Listed>)
    ensures First(p, s).Some? ==> First(p, s).value in s
  {
    if s != [] {
      FirstIsIn(p, s[1..]);
    }
  }

  lemma {:induction false} OldestIsIn(s: seq<Listed>)
    ensures Oldest(s).Some? ==> Oldest(s).value in s
    ensures s != [] ==> Oldest(s).Some?
  {
    if s != [] {
      OldestIsIn(s[1..]);
    }
  }
}
