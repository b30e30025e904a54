/**
 Label sharing: lists of labels are interned in a store and referred to by a
 compact UID. The store is an arena: `elems` holds each distinct list once, at
 the index that is its UID, and `uids` maps a list back to that index.
 */
module Labels {

  type LabelList = seq<string>

  /** A label UID: the arena index of the list it stands for. */
  datatype Uid = Uid(index: nat)

  datatype Error = UnknownUid(uid: Uid)

  datatype Result<T> = Ok(value: T) | Err(error: Error)

  /** The store's contents: the arena and the payload-to-UID index. */
  datatype Mem = Mem(elems: seq<LabelList>, uids: map<LabelList, nat>)

  /** Every stored list sits at the index its entry names, and every arena
      slot is indexed under its own list, so no list is stored twice. */
  ghost predicate Valid(m: Mem) {
    && (forall l :: l in m.uids ==> m.uids[l] < |m.elems| && m.elems[m.uids[l]] == l)
    && (forall i :: 0 <= i < |m.elems| ==> m.elems[i] in m.uids && m.uids[m.elems[i]] == i)
  }

  /** True when `u` was issued by the store `m`. */
  predicate Issued(m: Mem, u: Uid) {
    u.index < |m.elems|
  }

  /** The store before any list is registered. */
  function Empty(): (m: Mem)
    ensures Valid(m)
    ensures forall u :: !Issued(m, u)
  {
    Mem([], map[])
  }

  /** `get_uid`: the UID of `labels`, registering the list first when it is new.
      The store only ever grows, and a list already present leaves it as it was. */
  function GetUid(m: Mem, labels: LabelList): (r: (Mem, Uid))
    requires Valid(m)
    ensures Valid(r.0)
    ensures Issued(r.0, r.1) && r.0.elems[r.1.index] == labels
    ensures m.elems <= r.0.elems
    ensures labels in m.elems ==> r.0 == m
    ensures labels !in m.elems ==> r.0.elems == m.elems + [labels] && r.1.index == |m.elems|
  {
    if labels in m.uids then
      (m, Uid(m.uids[labels]))
    else
      var n := |m.elems|;
      var m' := Mem(m.elems + [labels], m.uids[labels := n]);
      assert forall i :: 0 <= i < n ==> m'.elems[i] == m.elems[i] && m.elems[i] != labels;
      (m', Uid(n))
  }

  /** `get_elm`: the list a UID stands for; a UID this store never issued is an error. */
  function GetElm(m: Mem, u: Uid): (r: Result<LabelList>)
    ensures r.Ok? <==> Issued(m, u)
    ensures r.Err? ==> r.error == UnknownUid(u)
    ensures r.Ok? ==> r.value == m.elems[u.index]
  {
    if u.index < |m.elems| then Ok(m.elems[u.index]) else Err(UnknownUid(u))
  }

  /** Registers `ls` in order, one `add` after the other, and returns the store
      reached and the UIDs handed out. */
  function AddAll(m: Mem, ls: seq<LabelList>): (r: (Mem, seq<Uid>))
    requires Valid(m)
    ensures Valid(r.0) && |r.1| == |ls|
    ensures m.elems <= r.0.elems
    ensures forall i :: 0 <= i < |ls| ==> GetElm(r.0, r.1[i]) == Ok(ls[i])
    decreases |ls|
  {
    if ls == [] then
      (m, [])
    else
      var (m1, u) := GetUid(m, ls[0]);
      var (m2, us) := AddAll(m1, ls[1..]);
      assert forall i :: 1 <= i < |ls| ==> ([u] + us)[i] == us[i - 1] && ls[i] == ls[1..][i - 1];
      (m2, [u] + us)
  }

  /** Round trip: resolving the UID `add` returns gives back the list. */
  lemma AddThenGet(m: Mem, labels: LabelList)
    requires Valid(m)
    ensures GetElm(GetUid(m, labels).0, GetUid(m, labels).1) == Ok(labels)
  {
  }

  /** Label sharing: two lists registered one after the other get the same UID
      exactly when they are equal. */
  lemma SharedIffEqual(m: Mem, l1: LabelList, l2: LabelList)
    requires Valid(m)
    ensures var (m1, u1) := GetUid(m, l1);
            GetUid(m1, l2).1 == u1 <==> l1 == l2
  {
  }

  /** A later registration never changes what an earlier UID resolves to. */
  lemma GetStable(m: Mem, labels: LabelList, u: Uid)
    requires Valid(m) && Issued(m, u)
    ensures GetElm(GetUid(m, labels).0, u) == GetElm(m, u)
  {
  }

  /** Over any run of registrations: two UIDs handed out are equal exactly when
      the lists were equal, and every UID issued before the run still resolves
      to the same list afterwards. */
  lemma AddAllShares(m: Mem, ls: seq<LabelList>)
    requires Valid(m)
    ensures forall i, j :: 0 <= i < |ls| && 0 <= j < |ls| ==>
              (AddAll(m, ls).1[i] == AddAll(m, ls).1[j] <==> ls[i] == ls[j])
    ensures forall u :: Issued(m, u) ==> GetElm(AddAll(m, ls).0, u) == GetElm(m, u)
  {
  }

  /** The arena a run of registrations leads to, reckoned without any index:
      the lists already stored, then each list of `ls` that was not seen
      before, in the order of its first appearance. */
  function FirstAppearances(stored: seq<LabelList>, ls: seq<LabelList>): (r: seq<LabelList>)
    ensures stored <= r
    ensures forall l :: l in r <==> l in stored || l in ls
    decreases |ls|
  {
    if ls == [] then
      stored
    else
      var next := if ls[0] in stored then stored else stored + [ls[0]];
      var r := FirstAppearances(next, ls[1..]);
      assert forall l :: l in ls <==> l == ls[0] || l in ls[1..];
      r
  }

  /** The arena after any run of `add` calls holds exactly the distinct lists
      registered, each once, in the order they were first registered. */
  lemma {:induction false} AddAllArena(m: Mem, ls: seq<LabelList>)
    requires Valid(m)
    ensures AddAll(m, ls).0.elems == FirstAppearances(m.elems, ls)
    decreases |ls|
  {
    if ls != [] {
      var (m1, u) := GetUid(m, ls[0]);
      AddAllArena(m1, ls[1..]);
    }
  }

  /** The label store the process shares. Reads and writes are sequential here;
      the lock around the store is not part of this model. */
  class LabelStore {
    var elems: seq<LabelList>
    var uids: map<LabelList, nat>

    function State(): Mem
      reads this
    {
      Mem(elems, uids)
    }

    constructor ()
      ensures State() == Empty()
    {
      elems := [];
      uids := map[];
    }

    /** `add`: registers `labels` and returns its UID. */
    method Add(labels: LabelList) returns (u: Uid)
      requires Valid(State())
      modifies this
      ensures (State(), u) == GetUid(old(State()), labels)
      ensures GetElm(State(), u) == Ok(labels)
      ensures Valid(State())
    {
      if labels in uids {
        u := Uid(uids[labels]);
      } else {
        u := Uid(|elems|);
        elems := elems + [labels];
        uids := uids[labels := u.index];
      }
    }

    /** `get`: the list `u` stands for, read without changing the store. */
    method Get(u: Uid) returns (r: Result<LabelList>)
      requires Valid(State())
      ensures r.Ok? <==> Issued(State(), u)
      ensures r.Ok? ==> r.value == elems[u.index]
      ensures r.Err? ==> r.error == UnknownUid(u)
    {
      if u.index < |elems| {
        r := Ok(elems[u.index]);
      } else {
        r := Err(UnknownUid(u));
      }
    }
  }

  /** Two `add` calls on one store, then a `get` of the first UID: equal lists
      share a UID, and the first list is still what its UID resolves to. */
  method AddTwiceThenGet(store: LabelStore, l1: LabelList, l2: LabelList)
    returns (u1: Uid, u2: Uid, r: Result<LabelList>)
    requires Valid(store.State())
    modifies store
    ensures (u1 == u2) == (l1 == l2)
    ensures r == Ok(l1)
  {
    u1 := store.Add(l1);
    u2 := store.Add(l2);
    SharedIffEqual(old(store.State()), l1, l2);
    r := store.Get(u1);
  }
}
