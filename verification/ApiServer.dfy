/** The objects of one resource type on an API server: optimistic-concurrency writes, every
    past revision, and chunked lists over a snapshot (Kubernetes API Conventions, section
    "Concurrency Control and Consistency"; Kubernetes API Concepts, section "Retrieving large
    results sets in chunks"). */
module ApiServer {
  import opened Wrappers

  /** The rank of an object's namespace and name in the order in which the server lists. */
  type Key = nat
  type Content = string
  type Hash = string

  /** A stored object: what it says, when it was last written, and in which storage version. */
  datatype Object = Object(content: Content, rv: nat, enc: Hash)

  type Store = map<Key, Object>

  /** A write by some other client. */
  datatype Write = Save(key: Key, content: Content) | Remove(key: Key)

  /** The state of the server: all past stores, the present one, the storage version in which
      it encodes what it writes, and the revision at which that version became active. */
  datatype World = World(past: seq<Store>, now: Store, active: Hash, since: nat) {

    function Snapshot(r: nat): Store {
      if r < |past| then past[r] else now
    }

    function Commit(s: Store): World {
      World(past + [now], s, active, since)
    }

    /** Any accepted write is encoded in the active version and gets a fresh revision. */
    function Put(k: Key, c: Content): World {
      Commit(now[k := Object(c, |past| + 1, active)])
    }

    function Apply(x: Write): World {
      match x
      case Save(k, c) => Put(k, c)
      case Remove(k) => Commit(now - {k})
    }

    function ApplyAll(xs: seq<Write>): World
      decreases |xs|
    {
      if xs == [] then this else Apply(xs[0]).ApplyAll(xs[1..])
    }

    function SwitchTo(h: Hash): World {
      if h == active then this else World(past, now, h, |past|)
    }

    /** The object is stored in another version than the active one. */
    ghost predicate Lagging(k: Key) {
      k in now && now[k].enc != active
    }

    ghost predicate AllCurrent() {
      forall k: Key :: !Lagging(k)
    }

    /** Revisions never run ahead, a revision names one state of an object, and every lagging
        object is unchanged since the active version became active. */
    ghost predicate Valid() {
      && since <= |past|
      && (forall k :: k in now ==> now[k].rv <= |past|)
      && (forall r, k :: 0 <= r < |past| && k in past[r] ==> Faithful(k, past[r][k]))
      && (forall r, k :: since <= r < |past| && Lagging(k) ==> k in past[r] && past[r][k] == now[k])
    }

    /** The object was read from the server: if its revision is still the stored one, so is
        all the rest. */
    ghost predicate Faithful(k: Key, o: Object) {
      && o.rv <= |past|
      && (k in now && now[k].rv == o.rv ==> now[k] == o)
    }
  }

  function Contents(w: World): map<Key, Content> {
    map k | k in w.now :: w.now[k].content
  }

  function Overwrite(c: map<Key, Content>, x: Write): map<Key, Content> {
    match x
    case Save(k, v) => c[k := v]
    case Remove(k) => c - {k}
  }

  function OverwriteAll(c: map<Key, Content>, xs: seq<Write>): map<Key, Content>
    decreases |xs|
  {
    if xs == [] then c else OverwriteAll(Overwrite(c, xs[0]), xs[1..])
  }

  /** What no sequence of writes can undo while the storage version stays the same. */
  ghost predicate Evolves(w: World, w': World) {
    && |w.past| <= |w'.past|
    && w'.active == w.active
    && w'.since == w.since
    && (forall k: Key :: w'.Lagging(k) ==> w.Lagging(k) && w.now[k] == w'.now[k])
    && (forall k :: k in w'.now && w'.now[k].rv <= |w.past| ==> k in w.now && w.now[k] == w'.now[k])
  }

  /** A commit in which every object is either unchanged or freshly written. */
  lemma CommitIsSound(w: World, s: Store)
    requires w.Valid()
    requires forall k :: k in s ==> (k in w.now && s[k] == w.now[k]) || (s[k].rv == |w.past| + 1 && s[k].enc == w.active)
    ensures w.Commit(s).Valid()
    ensures Evolves(w, w.Commit(s))
  {
    var w' := w.Commit(s);
    forall r, k | 0 <= r < |w'.past| && k in w'.past[r]
      ensures w'.Faithful(k, w'.past[r][k])
    {
      if r < |w.past| {
        assert w.Faithful(k, w.past[r][k]);
      }
    }
  }

  lemma ApplyIsSound(w: World, x: Write)
    requires w.Valid()
    ensures w.Apply(x).Valid()
    ensures Evolves(w, w.Apply(x))
    ensures Contents(w.Apply(x)) == Overwrite(Contents(w), x)
  {
    CommitIsSound(w, w.Apply(x).now);
  }

  lemma EvolvesOn(w: World, w': World, w'': World)
    requires Evolves(w, w') && Evolves(w', w'')
    ensures Evolves(w, w'')
  {
  }

  lemma {:induction false} ApplyAllIsSound(w: World, xs: seq<Write>)
    requires w.Valid()
    ensures w.ApplyAll(xs).Valid()
    ensures Evolves(w, w.ApplyAll(xs))
    ensures Contents(w.ApplyAll(xs)) == OverwriteAll(Contents(w), xs)
    decreases |xs|
  {
    if xs != [] {
      ApplyIsSound(w, xs[0]);
      ApplyAllIsSound(w.Apply(xs[0]), xs[1..]);
    }
  }

  /** Rewriting an object with what was read at its present revision changes no content. */
  lemma RewriteKeepsContents(w: World, k: Key, o: Object)
    requires w.Faithful(k, o) && k in w.now && w.now[k].rv == o.rv
    ensures Contents(w.Put(k, o.content)) == Contents(w)
  {
    assert w.now[k] == o;
  }

  lemma OverwriteAllAppends(c: map<Key, Content>, xs: seq<Write>, ys: seq<Write>)
    ensures OverwriteAll(c, xs + ys) == OverwriteAll(OverwriteAll(c, xs), ys)
    decreases |xs|
  {
    if xs == [] {
      assert xs + ys == ys;
    } else {
      assert (xs + ys)[1..] == xs[1..] + ys;
      OverwriteAllAppends(Overwrite(c, xs[0]), xs[1..], ys);
    }
  }

  // ------------------------------------------------------------------ chunked lists

  /** A continue token. A token without a snapshot comes from an expiry error: the list goes
      on from the latest state instead of the one it began with. */
  datatype Token = Start | Continue(after: Key, snapshot: Option<nat>)

  datatype Item = Item(key: Key, obj: Object)

  datatype Page = Page(items: seq<Item>, next: Token)

  function After(t: Token): int {
    if t.Start? then -1 else t.after
  }

  function SnapshotOf(w: World, t: Token): nat {
    if t.Continue? && t.snapshot.Some? then t.snapshot.value else |w.past|
  }

  function Remaining(w: World, t: Token): set<Key> {
    set k | k in w.Snapshot(SnapshotOf(w, t)) && k > After(t)
  }

  predicate IsLeast(s: set<nat>, m: nat) {
    m in s && forall k :: k in s ==> m <= k
  }

  lemma {:induction false} LeastExists(s: set<nat>) returns (m: nat)
    requires s != {}
    ensures IsLeast(s, m)
    decreases |s|
  {
    m :| m in s;
    var rest := s - {m};
    assert s == rest + {m};
    if rest != {} {
      var n := LeastExists(rest);
      m := if m < n then m else n;
    }
  }

  function Least(s: set<nat>): (m: nat)
    requires s != {}
    ensures IsLeast(s, m)
  {
    assert exists m :: IsLeast(s, m) by {
      var m := LeastExists(s);
    }
    var m :| IsLeast(s, m);
    m
  }

  /** The elements of a set in ascending order. */
  function Ascending(s: set<nat>): (q: seq<nat>)
    ensures |q| == |s|
    ensures forall k :: k in q <==> k in s
    ensures forall i, j :: 0 <= i < j < |q| ==> q[i] < q[j]
  {
    if s == {} then [] else [Least(s)] + Ascending(s - {Least(s)})
  }

  /** The server fills the page up to the limit, unless it ends the page where it likes. */
  function PageSize(total: nat, limit: nat, hint: nat): nat {
    var n := if hint == 0 then limit else hint;
    if n < total then n else total
  }

  function ServePage(w: World, t: Token, limit: nat, hint: nat): Page
    requires limit > 0
  {
    var r := SnapshotOf(w, t);
    var keys := Ascending(Remaining(w, t));
    var n := PageSize(|keys|, limit, hint);
    assert forall i :: 0 <= i < |keys| ==> keys[i] in keys;
    Page(seq(n, i requires 0 <= i < n => Item(keys[i], w.Snapshot(r)[keys[i]])),
         if n == |keys| then Start else Continue(keys[n - 1], Some(r)))
  }

  /** The token belongs to the present storage version, and every lagging object is after it. */
  ghost predicate CursorSafe(w: World, t: Token) {
    && (t.Continue? && t.snapshot.Some? ==> w.since <= t.snapshot.value <= |w.past|)
    && (forall k: Key :: w.Lagging(k) ==> k > After(t))
  }

  ghost predicate DistinctKeys(items: seq<Item>) {
    forall i, j :: 0 <= i < j < |items| ==> items[i].key != items[j].key
  }

  ghost predicate Pages(items: seq<Item>, k: Key) {
    exists i :: 0 <= i < |items| && items[i].key == k
  }

  /** A page read at a safe cursor holds faithful copies, and what it leaves out that lags is
      after the next cursor; after the last page nothing is left out. */
  lemma PageCovers(w: World, t: Token, limit: nat, hint: nat)
    requires w.Valid() && CursorSafe(w, t) && limit > 0
    ensures var p := ServePage(w, t, limit, hint);
            && DistinctKeys(p.items)
            && (forall i :: 0 <= i < |p.items| ==> w.Faithful(p.items[i].key, p.items[i].obj))
            && (p.next.Continue? ==> p.next.snapshot == Some(SnapshotOf(w, t)) && w.since <= SnapshotOf(w, t) <= |w.past|)
            && (forall k: Key :: w.Lagging(k) ==> Pages(p.items, k) || (p.next.Continue? && k > After(p.next)))
  {
    var r := SnapshotOf(w, t);
    var keys := Ascending(Remaining(w, t));
    var p := ServePage(w, t, limit, hint);
    var n := |p.items|;
    forall i | 0 <= i < n
      ensures w.Faithful(p.items[i].key, p.items[i].obj)
    {
      assert keys[i] in keys;
    }
    forall k: Key | w.Lagging(k)
      ensures Pages(p.items, k) || (p.next.Continue? && k > After(p.next))
    {
      assert k in Remaining(w, t);
      assert k in keys;
      var i :| 0 <= i < |keys| && keys[i] == k;
      if i < n {
        assert p.items[i].key == k;
      } else {
        assert keys[n - 1] < keys[i];
      }
    }
  }

  lemma CursorStaysSafe(w: World, w': World, t: Token)
    requires CursorSafe(w, t) && Evolves(w, w')
    ensures CursorSafe(w', t)
  {
  }
}
