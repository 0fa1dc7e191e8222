/** The two-level screen catalogue both permission editors render: parent
    screens, each with its child screens and their Read/Write/Delete flags. */
module Screens {
  import opened Js
  import opened Dict
  import opened Listing

  /** A child screen: one row of the permission grid. The flags and the
      audit fields are whatever the backend sent (normally booleans and
      strings); `Undefined` marks a key the record does not have. */
  datatype ChildScreen = ChildScreen(
    ScreenId: string,
    ScreenName: string,
    ParentName: string,
    UserGroupId: JsValue,
    CompanyId: JsValue,
    ReadPermission: JsValue,
    WritePermission: JsValue,
    DeletePermission: JsValue,
    CreateBy: JsValue,
    CreateDate: JsValue,
    ModifyBy: JsValue,
    ModifyDate: JsValue)

  /** A parent screen: a collapsible group of child screens. */
  datatype ParentScreen = ParentScreen(
    ScreenId: string,
    ScreenName: string,
    ParentName: string,
    ScreenNameData: seq<ChildScreen>)

  /** The children of every parent, parent by parent, in catalogue order. */
  function AllChildren(ps: seq<ParentScreen>): (cs: seq<ChildScreen>)
    ensures ps == [] ==> cs == []
  {
    if ps == [] then [] else AllChildren(ps[..|ps| - 1]) + ps[|ps| - 1].ScreenNameData
  }

  lemma AllChildrenAppend(ps: seq<ParentScreen>, p: ParentScreen)
    ensures AllChildren(ps + [p]) == AllChildren(ps) + p.ScreenNameData
  {
    assert (ps + [p])[..|ps|] == ps;
  }

  /** The ids of the children, in order. */
  function Ids(cs: seq<ChildScreen>): (ids: seq<string>)
    ensures |ids| == |cs|
    ensures forall i :: 0 <= i < |cs| ==> ids[i] == cs[i].ScreenId
  {
    seq(|cs|, i requires 0 <= i < |cs| => cs[i].ScreenId)
  }

  /** Child `j` is the last one in `cs` with id `k`. */
  ghost predicate LastWith(cs: seq<ChildScreen>, k: string, j: int) {
    0 <= j < |cs| && cs[j].ScreenId == k &&
    forall j' :: j < j' < |cs| ==> cs[j'].ScreenId != k
  }

  /** The dictionary `obj[child.ScreenId] = f(child)` builds when it visits
      the children in order. */
  function Index<V>(cs: seq<ChildScreen>, f: ChildScreen -> V): Dict<V> {
    if cs == [] then []
    else
      var c := cs[|cs| - 1];
      Put(Index(cs[..|cs| - 1], f), c.ScreenId, f(c))
  }

  /** The dictionary has unique keys, and its keys are exactly the children's ids. */
  lemma {:induction false} IndexKeys<V>(cs: seq<ChildScreen>, f: ChildScreen -> V)
    ensures Wf(Index(cs, f))
    ensures forall k :: k in Keys(Index(cs, f)) <==> k in Ids(cs)
  {
    if cs != [] {
      var c := cs[|cs| - 1];
      IndexKeys(cs[..|cs| - 1], f);
      IdsSnoc(cs);
      PutSpec(Index(cs[..|cs| - 1], f), c.ScreenId, f(c));
      PutKeys(Index(cs[..|cs| - 1], f), c.ScreenId, f(c));
    }
  }

  /** The ids of a non-empty list are those of all but its last child, then the last one's. */
  lemma IdsSnoc(cs: seq<ChildScreen>)
    requires cs != []
    ensures Ids(cs) == Ids(cs[..|cs| - 1]) + [cs[|cs| - 1].ScreenId]
  {
  }

  /** Visiting one more child is one more `obj[child.ScreenId] = f(child)`. */
  lemma IndexSnoc<V>(cs: seq<ChildScreen>, c: ChildScreen, f: ChildScreen -> V)
    ensures Index(cs + [c], f) == Put(Index(cs, f), c.ScreenId, f(c))
  {
    assert (cs + [c])[..|cs|] == cs;
  }

  /** For a repeated id, the entry holds the last child with that id. */
  lemma {:induction false} IndexLastWins<V>(cs: seq<ChildScreen>, f: ChildScreen -> V, k: string, j: int)
    requires LastWith(cs, k, j)
    ensures Get(Index(cs, f), k) == Some(f(cs[j]))
  {
    var n := |cs|;
    var c := cs[n - 1];
    if j == n - 1 {
      PutSpec(Index(cs[..n - 1], f), c.ScreenId, f(c));
    } else {
      var pre := cs[..n - 1];
      assert LastWith(pre, k, j);
      IndexLastWins(pre, f, k, j);
      PutOther(Index(pre, f), c.ScreenId, f(c), k);
    }
  }

  /** Every id of the children has exactly one entry, whose value is the last child with it. */
  lemma IndexEntry<V>(cs: seq<ChildScreen>, f: ChildScreen -> V, k: string)
    requires k in Ids(cs)
    ensures exists j :: LastWith(cs, k, j) && Get(Index(cs, f), k) == Some(f(cs[j]))
  {
    var j :| 0 <= j < |cs| && cs[j].ScreenId == k;
    while j + 1 < |cs| && exists j' :: j < j' < |cs| && cs[j'].ScreenId == k
      invariant 0 <= j < |cs| && cs[j].ScreenId == k
      decreases |cs| - j
    {
      var j' :| j < j' < |cs| && cs[j'].ScreenId == k;
      j := j';
    }
    assert LastWith(cs, k, j);
    IndexLastWins(cs, f, k, j);
  }

  /** ScreenId is unique across the children (the catalogue's own invariant). */
  ghost predicate UniqueIds(cs: seq<ChildScreen>) {
    forall i, j :: 0 <= i < j < |cs| ==> cs[i].ScreenId != cs[j].ScreenId
  }

  /** With unique ids the dictionary lists every child once, in catalogue order. */
  lemma {:induction false} IndexInOrder<V>(cs: seq<ChildScreen>, f: ChildScreen -> V)
    requires UniqueIds(cs)
    ensures |Index(cs, f)| == |cs|
    ensures forall i :: 0 <= i < |cs| ==> Index(cs, f)[i] == (cs[i].ScreenId, f(cs[i]))
  {
    if cs != [] {
      var n := |cs|;
      var pre := cs[..n - 1];
      var c := cs[n - 1];
      assert UniqueIds(pre);
      IndexInOrder(pre, f);
      var d := Index(pre, f);
      PutSpec(d, c.ScreenId, f(c));
      assert Index(cs, f) == Put(d, c.ScreenId, f(c));
      assert c.ScreenId !in Keys(d) by {
        forall i | 0 <= i < |d| ensures Keys(d)[i] != c.ScreenId {
          assert Keys(d)[i] == pre[i].ScreenId == cs[i].ScreenId;
        }
      }
      assert Index(cs, f) == d + [(c.ScreenId, f(c))];
      forall i | 0 <= i < n ensures Index(cs, f)[i] == (cs[i].ScreenId, f(cs[i])) {
        if i < n - 1 {
          assert cs[i] == pre[i];
        }
      }
    }
  }

  /** The three flags of a permission row. */
  datatype Perm = ReadPermission | WritePermission | DeletePermission

  function Flag(c: ChildScreen, p: Perm): JsValue {
    match p
    case ReadPermission => c.ReadPermission
    case WritePermission => c.WritePermission
    case DeletePermission => c.DeletePermission
  }

  /** `{ ...child, [perm]: v }`: the child with one flag replaced. */
  function WithFlag(c: ChildScreen, p: Perm, v: JsValue): (r: ChildScreen)
    ensures Flag(r, p) == v
    ensures forall q :: q != p ==> Flag(r, q) == Flag(c, q)
    ensures r.ScreenId == c.ScreenId && r.ScreenName == c.ScreenName && r.ParentName == c.ParentName
    ensures r.UserGroupId == c.UserGroupId && r.CompanyId == c.CompanyId
    ensures r.CreateBy == c.CreateBy && r.CreateDate == c.CreateDate
    ensures r.ModifyBy == c.ModifyBy && r.ModifyDate == c.ModifyDate
  {
    match p
    case ReadPermission => c.(ReadPermission := v)
    case WritePermission => c.(WritePermission := v)
    case DeletePermission => c.(DeletePermission := v)
  }

  /** The loop both editors run over the catalogue: for every parent, for
      every child, `obj[child.ScreenId] = f(child)`. */
  method BuildIndex<V>(ps: seq<ParentScreen>, f: ChildScreen -> V) returns (d: Dict<V>)
    ensures d == Index(AllChildren(ps), f)
  {
    d := [];
    var p := 0;
    while p < |ps|
      invariant 0 <= p <= |ps|
      invariant d == Index(AllChildren(ps[..p]), f)
    {
      d := PutChildren(d, AllChildren(ps[..p]), ps[p].ScreenNameData, f);
      AllChildrenAppend(ps[..p], ps[p]);
      assert ps[..p + 1] == ps[..p] + [ps[p]];
      p := p + 1;
    }
    assert ps[..p] == ps;
  }

  /** The inner loop, over one parent's children. */
  method PutChildren<V>(d0: Dict<V>, ghost done: seq<ChildScreen>, children: seq<ChildScreen>, f: ChildScreen -> V)
    returns (d: Dict<V>)
    requires d0 == Index(done, f)
    ensures d == Index(done + children, f)
  {
    d := d0;
    var c := 0;
    assert done + children[..c] == done;
    while c < |children|
      invariant 0 <= c <= |children|
      invariant d == Index(done + children[..c], f)
    {
      IndexStep(done, children, c, f);
      d := Put(d, children[c].ScreenId, f(children[c]));
      c := c + 1;
    }
    assert children[..c] == children;
  }

  /** One iteration of the inner loop is one more `obj[child.ScreenId] = f(child)`. */
  lemma IndexStep<V>(done: seq<ChildScreen>, children: seq<ChildScreen>, c: nat, f: ChildScreen -> V)
    requires c < |children|
    ensures Index(done + children[..c + 1], f) == Put(Index(done + children[..c], f), children[c].ScreenId, f(children[c]))
  {
    AppendSliceStep(done, children, c);
    IndexSnoc(done + children[..c], children[c], f);
  }

  /** A group is shown open when its entry is `true`; an absent entry reads
      as `undefined`, which is closed. */
  predicate Expanded(enabled: map<string, bool>, id: string) {
    id in enabled && enabled[id]
  }

  /** A click on a group header, `{ ...prev, [id]: !prev[id] }`: that group
      flips between open and closed, every other entry stays as it was. */
  function ToggleExpanded(enabled: map<string, bool>, id: string): (r: map<string, bool>)
    ensures Expanded(r, id) == !Expanded(enabled, id)
    ensures r.Keys == enabled.Keys + {id}
    ensures forall k :: k in enabled && k != id ==> r[k] == enabled[k]
  {
    enabled[id := !Expanded(enabled, id)]
  }

  /** Two clicks on the same header restore its open/closed state and leave
      the others alone. */
  lemma ToggleTwice(enabled: map<string, bool>, id: string)
    ensures var r := ToggleExpanded(ToggleExpanded(enabled, id), id);
      && Expanded(r, id) == Expanded(enabled, id)
      && forall k :: k != id ==> (Expanded(r, k) <==> Expanded(enabled, k))
  {
  }
}
