/**
 * The part of an invocation's attribute bag that pauses and resumes tool calls (src/agents/llm_agent.rs:1022-1063,
 * 1106-1116; src/runner/runner.rs:273-304): auth ids, confirmation decisions, the pause flag.
 */
module Attributes {
  import opened Wrappers
  import opened Genai

  /** A recorded decision; a value that does not read as one is no decision. */
  datatype Entry = Entry(id: string, decision: Option<ToolConfirmation>)

  /** An attribute that is absent or has another JSON shape is `None`. */
  datatype Bag = Bag(authIds: Option<seq<string>>, confirmations: Option<seq<Entry>>, paused: bool)

  function Keys(entries: seq<Entry>): seq<string> {
    seq(|entries|, i requires 0 <= i < |entries| => entries[i].id)
  }

  predicate Distinct<T(==)>(ids: seq<T>) {
    forall i, j | 0 <= i < j < |ids| :: ids[i] != ids[j]
  }

  /** The decisions are a JSON object: its keys are distinct. */
  predicate Valid(bag: Bag) {
    bag.confirmations.Some? ==> Distinct(Keys(bag.confirmations.value))
  }

  /** Nothing removes duplicates from the auth ids. */
  predicate AuthIdsDistinct(bag: Bag) {
    bag.authIds.Some? ==> Distinct(bag.authIds.value)
  }

  function AddNew(ids: seq<string>, keys: seq<string>): seq<string>
    decreases keys
  {
    if keys == [] then ids
    else AddNew(if keys[0] in ids then ids else ids + [keys[0]], keys[1..])
  }

  /** The ids unblocked by the current user event: auth consents first, then decisions not among them. */
  function ResumedIds(bag: Bag): seq<string> {
    AddNew(if bag.authIds.Some? then bag.authIds.value else [],
           if bag.confirmations.Some? then Keys(bag.confirmations.value) else [])
  }

  function Without(ids: seq<string>, gone: seq<string>): seq<string> {
    if ids == [] then [] else (if ids[0] in gone then [] else [ids[0]]) + Without(ids[1..], gone)
  }

  function IndexOf(entries: seq<Entry>, id: string): (k: nat)
    ensures k <= |entries|
    ensures k < |entries| ==> entries[k].id == id
    ensures forall i | 0 <= i < k :: entries[i].id != id
  {
    if entries == [] || entries[0].id == id then 0 else 1 + IndexOf(entries[1..], id)
  }

  /** Objects keep insertion order; removing a key moves the last entry into its place. */
  function SwapRemove(entries: seq<Entry>, id: string): seq<Entry> {
    var k := IndexOf(entries, id);
    if k == |entries| then entries
    else if k == |entries| - 1 then entries[..k]
    else entries[..|entries| - 1][k := entries[|entries| - 1]]
  }

  function RemoveAll(entries: seq<Entry>, ids: seq<string>): seq<Entry>
    decreases ids
  {
    if ids == [] then entries else RemoveAll(SwapRemove(entries, ids[0]), ids[1..])
  }

  function Consume(bag: Bag, consumed: seq<string>): Bag {
    if consumed == [] then bag
    else Bag(if bag.authIds.Some? then Some(Without(bag.authIds.value, consumed)) else None,
             if bag.confirmations.Some? then Some(RemoveAll(bag.confirmations.value, consumed)) else None,
             bag.paused)
  }

  /** The decision recorded for a call. */
  function DecisionFor(bag: Bag, callId: Option<string>): Option<ToolConfirmation> {
    if callId.None? || bag.confirmations.None? then None
    else
      var k := IndexOf(bag.confirmations.value, callId.value);
      if k < |bag.confirmations.value| then bag.confirmations.value[k].decision else None
  }

  predicate Approved(bag: Bag, id: string) {
    DecisionFor(bag, Some(id)).Some? && DecisionFor(bag, Some(id)).value.confirmed
  }

  // ---- The code ----------------------------------------------------------------------------------------

  /** The bag that every agent of an invocation shares; each method holds its lock. */
  class SharedBag {
    var bag: Bag

    constructor (bag: Bag)
      ensures this.bag == bag
    {
      this.bag := bag;
    }

    method ResumedToolCallIds() returns (ids: seq<string>)
      ensures ids == ResumedIds(bag)
    {
      ids := if bag.authIds.Some? then bag.authIds.value else [];
      if bag.confirmations.Some? {
        var keys := Keys(bag.confirmations.value);
        var i := 0;
        while i < |keys|
          invariant 0 <= i <= |keys|
          invariant AddNew(ids, keys[i..]) == ResumedIds(bag)
        {
          assert keys[i..][0] == keys[i] && keys[i..][1..] == keys[i + 1..];
          if keys[i] !in ids {
            ids := ids + [keys[i]];
          }
          i := i + 1;
        }
      }
    }

    method ConsumeResumedIds(consumed: seq<string>)
      modifies this
      ensures bag == Consume(old(bag), consumed)
    {
      hide SwapRemove;
      if consumed == [] {
        return;
      }
      if bag.authIds.Some? {
        bag := bag.(authIds := Some(Without(bag.authIds.value, consumed)));
      }
      if bag.confirmations.Some? {
        var entries := bag.confirmations.value;
        ghost var goal := RemoveAll(entries, consumed);
        var i := 0;
        while i < |consumed|
          invariant 0 <= i <= |consumed|
          invariant RemoveAll(entries, consumed[i..]) == goal
        {
          assert consumed[i..][0] == consumed[i] && consumed[i..][1..] == consumed[i + 1..];
          entries := SwapRemove(entries, consumed[i]);
          i := i + 1;
        }
        bag := bag.(confirmations := Some(entries));
      }
    }
  }

  // ---- What consuming does -----------------------------------------------------------------------------

  lemma {:induction false} AddNewMembers(ids: seq<string>, keys: seq<string>)
    ensures forall x :: x in AddNew(ids, keys) <==> x in ids || x in keys
    ensures Distinct(ids) ==> Distinct(AddNew(ids, keys))
    decreases keys
  {
    if keys != [] {
      AddNewMembers(if keys[0] in ids then ids else ids + [keys[0]], keys[1..]);
    }
  }

  lemma {:induction false} WithoutMembers(ids: seq<string>, gone: seq<string>)
    ensures forall x :: x in Without(ids, gone) <==> x in ids && x !in gone
    decreases ids
  {
    if ids != [] {
      WithoutMembers(ids[1..], gone);
    }
  }

  lemma KeysMembers(entries: seq<Entry>, id: string)
    ensures id in Keys(entries) <==> IndexOf(entries, id) < |entries|
  {
    var k := IndexOf(entries, id);
    hide IndexOf;
    if k < |entries| {
      assert Keys(entries)[k] == id;
    } else {
      assert forall i | 0 <= i < |entries| :: Keys(entries)[i] == entries[i].id != id;
    }
  }

  /** Every entry of `after` is one of `before`. */
  ghost predicate Among(after: seq<Entry>, before: seq<Entry>) {
    forall e | e in after :: e in before
  }

  lemma SwapRemoveKeepsOthers(entries: seq<Entry>, id: string)
    requires Distinct(Keys(entries))
    ensures var r := SwapRemove(entries, id);
            && Distinct(Keys(r)) && id !in Keys(r) && Among(r, entries)
            && forall x | x != id :: x in Keys(r) <==> x in Keys(entries)
  {
    var k, r := IndexOf(entries, id), SwapRemove(entries, id);
    KeysMembers(entries, id);
    hide IndexOf;
    assert forall i | 0 <= i < |entries| :: Keys(entries)[i] == entries[i].id;
    assert forall i | 0 <= i < |r| :: Keys(r)[i] == r[i].id;
    if k < |entries| {
      var last := |entries| - 1;
      assert forall i | 0 <= i < |r| :: r[i] == if i == k then entries[last] else entries[i];
      forall x | x != id && x in Keys(entries) ensures x in Keys(r) {
        var i :| 0 <= i < |entries| && Keys(entries)[i] == x;
        if i == last { assert Keys(r)[k] == x; } else { assert Keys(r)[i] == x; }
      }
      forall x | x in Keys(r) ensures x != id && x in Keys(entries) {
        var i :| 0 <= i < |r| && Keys(r)[i] == x;
        assert x == Keys(entries)[if i == k then last else i];
      }
    }
  }

  lemma {:induction false} RemoveAllKeepsOthers(entries: seq<Entry>, ids: seq<string>)
    requires Distinct(Keys(entries))
    ensures var r := RemoveAll(entries, ids);
            && Distinct(Keys(r)) && Among(r, entries)
            && forall x :: x in Keys(r) <==> x in Keys(entries) && x !in ids
    decreases ids
  {
    if ids != [] {
      SwapRemoveKeepsOthers(entries, ids[0]);
      RemoveAllKeepsOthers(SwapRemove(entries, ids[0]), ids[1..]);
    }
  }

  /** Consuming takes away exactly the consumed ids; the bag stays valid and no decision changes. */
  lemma ConsumeConserves(bag: Bag, consumed: seq<string>)
    requires Valid(bag)
    ensures Valid(Consume(bag, consumed))
    ensures forall x :: x in ResumedIds(Consume(bag, consumed)) <==> x in ResumedIds(bag) && x !in consumed
    ensures forall x | Approved(Consume(bag, consumed), x) :: Approved(bag, x) && x !in consumed
  {
    if consumed != [] {
      var after := Consume(bag, consumed);
      ResumedMembers(bag);
      ResumedMembers(after);
      if bag.authIds.Some? {
        WithoutMembers(bag.authIds.value, consumed);
      }
      if bag.confirmations.Some? {
        RemoveAllKeepsOthers(bag.confirmations.value, consumed);
        forall x | Approved(after, x) ensures Approved(bag, x) && x !in consumed {
          DecisionSurvives(bag.confirmations.value, after.confirmations.value, x);
        }
      }
    }
  }

  lemma DecisionSurvives(before: seq<Entry>, after: seq<Entry>, x: string)
    requires Distinct(Keys(before)) && Among(after, before)
    requires IndexOf(after, x) < |after|
    ensures IndexOf(before, x) < |before| && before[IndexOf(before, x)] == after[IndexOf(after, x)]
    ensures x in Keys(after)
  {
    hide IndexOf, Distinct;
    KeysMembers(after, x);
    var e := after[IndexOf(after, x)];
    assert e in after;
    var j :| 0 <= j < |before| && before[j] == e;
    DistinctIndex(before, j);
  }

  /** Where keys are distinct, looking up a key finds its entry. */
  lemma DistinctIndex(entries: seq<Entry>, j: nat)
    requires Distinct(Keys(entries)) && j < |entries|
    ensures IndexOf(entries, entries[j].id) == j
  {
    var k := IndexOf(entries, entries[j].id);
    hide IndexOf;
    assert k <= j;
    assert Keys(entries)[j] == entries[j].id == Keys(entries)[k];
  }

  lemma ResumedMembers(bag: Bag)
    ensures forall x :: x in ResumedIds(bag) <==>
              (bag.authIds.Some? && x in bag.authIds.value) ||
              (bag.confirmations.Some? && x in Keys(bag.confirmations.value))
    ensures bag.authIds.Some? && Distinct(bag.authIds.value) ==> Distinct(ResumedIds(bag))
    ensures bag.authIds.None? ==> Distinct(ResumedIds(bag))
  {
    AddNewMembers(if bag.authIds.Some? then bag.authIds.value else [],
                  if bag.confirmations.Some? then Keys(bag.confirmations.value) else []);
  }

  lemma {:induction false} WithoutDistinct(ids: seq<string>, gone: seq<string>)
    requires Distinct(ids)
    ensures Distinct(Without(ids, gone))
    decreases ids
  {
    if ids != [] {
      WithoutDistinct(ids[1..], gone);
      WithoutMembers(ids[1..], gone);
    }
  }

  lemma ConsumeKeepsDistinct(bag: Bag, consumed: seq<string>)
    requires AuthIdsDistinct(bag)
    ensures AuthIdsDistinct(Consume(bag, consumed)) && Distinct(ResumedIds(Consume(bag, consumed)))
  {
    if bag.authIds.Some? {
      WithoutDistinct(bag.authIds.value, consumed);
    }
    ResumedMembers(Consume(bag, consumed));
  }

  lemma ApprovedIsUnblocked(bag: Bag)
    ensures forall id | Approved(bag, id) :: id in ResumedIds(bag)
  {
    ResumedMembers(bag);
    hide ResumedIds;
    forall id | Approved(bag, id) ensures id in ResumedIds(bag) {
      KeysMembers(bag.confirmations.value, id);
    }
  }

  /** In order: the auth consents as they are listed, then the decisions that are not among them. */
  lemma ResumedInOrder(bag: Bag)
    requires Valid(bag)
    ensures var consents := if bag.authIds.Some? then bag.authIds.value else [];
            var keys := if bag.confirmations.Some? then Keys(bag.confirmations.value) else [];
            ResumedIds(bag) == consents + Without(keys, consents)
  {
    if bag.confirmations.Some? {
      AddsTheRest(if bag.authIds.Some? then bag.authIds.value else [], Keys(bag.confirmations.value));
    }
  }

  lemma {:induction false} AddsTheRest(ids: seq<string>, keys: seq<string>)
    requires Distinct(keys)
    ensures AddNew(ids, keys) == ids + Without(keys, ids)
    decreases keys
  {
    if keys == [] {
      assert ids + [] == ids;
    } else {
      var key, rest := keys[0], keys[1..];
      var next := if key in ids then ids else ids + [key];
      DistinctTail(keys);
      hide Distinct;
      AddsTheRest(next, rest);
      SameWithout(rest, ids, next);
      var kept := Without(rest, ids);
      var added := if key in ids then [] else [key];
      assert Without(keys, ids) == added + kept;
      AddNewStep(ids, keys);
      hide Without, AddNew;
      Regroup(ids, added, kept);
      assert next == ids + added;
    }
  }

  lemma DistinctTail(keys: seq<string>)
    requires keys != [] && Distinct(keys)
    ensures keys[0] !in keys[1..] && Distinct(keys[1..])
  {
  }

  lemma AddNewStep(ids: seq<string>, keys: seq<string>)
    requires keys != []
    ensures AddNew(ids, keys) == AddNew(if keys[0] in ids then ids else ids + [keys[0]], keys[1..])
  {
  }

  lemma {:induction false} SameWithout(ids: seq<string>, gone: seq<string>, also: seq<string>)
    requires forall x | x in ids :: x in gone <==> x in also
    ensures Without(ids, gone) == Without(ids, also)
    decreases ids
  {
    if ids != [] {
      SameWithout(ids[1..], gone, also);
    }
  }

  /** What is not taken away keeps its place among the others. */
  lemma {:induction false} OthersKeepTheirPlace(before: seq<string>, id: string, after: seq<string>, gone: seq<string>)
    ensures Without(before + [id] + after, gone) ==
            Without(before, gone) + (if id in gone then [] else [id]) + Without(after, gone)
    decreases before
  {
    var all := before + [id] + after;
    if before == [] {
      assert all[0] == id && all[1..] == after;
    } else {
      assert all[0] == before[0] && all[1..] == before[1..] + [id] + after;
      OthersKeepTheirPlace(before[1..], id, after, gone);
      Associate(if before[0] in gone then [] else [before[0]], Without(before[1..], gone),
                if id in gone then [] else [id], Without(after, gone));
    }
  }

  /** Removing an entry moves the last one into its place; the others stay where they are. */
  lemma LastTakesItsPlace(entries: seq<Entry>, id: string)
    ensures var k, r := IndexOf(entries, id), SwapRemove(entries, id);
            if k == |entries| then r == entries
            else && |r| == |entries| - 1
                 && (forall i | 0 <= i < |r| :: r[i] == entries[if i == k then |entries| - 1 else i])
  {
  }

  /** Consuming leaves the decisions on other calls as they are. */
  lemma OtherDecisionsStay(bag: Bag, consumed: seq<string>, id: string)
    requires Valid(bag) && id !in consumed
    ensures DecisionFor(Consume(bag, consumed), Some(id)) == DecisionFor(bag, Some(id))
  {
    if consumed != [] && bag.confirmations.Some? {
      var before, after := bag.confirmations.value, RemoveAll(bag.confirmations.value, consumed);
      RemoveAllKeepsOthers(before, consumed);
      KeysMembers(before, id);
      KeysMembers(after, id);
      if IndexOf(after, id) < |after| {
        DecisionSurvives(before, after, id);
      }
    }
  }
}
