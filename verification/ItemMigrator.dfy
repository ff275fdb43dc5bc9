/** migrateOneItem and try as the loops and calls they are, against a server that other
    clients use at the same time and that fails calls as a script says. */
module ItemMigrator {
  import opened Wrappers
  import opened Errors
  import opened ApiServer
  import opened ItemMigration

  /** The GET of a try fails, after the others have written. */
  predicate GetFails(w: World, turns: seq<Turn>, k: Key) {
    turns != [] && GetAnswer(w.ApplyAll(turns[0].others), k, turns[0].reply).Failure?
  }

  class Client {
    var w: World
    var turns: seq<Turn>

    constructor (w: World, turns: seq<Turn>)
      ensures this.w == w && this.turns == turns
    {
      this.w := w;
      this.turns := turns;
    }

    method Get(k: Key) returns (r: Result<Object, Error>)
      requires turns != []
      modifies this
      ensures w == old(w).ApplyAll(old(turns)[0].others)
      ensures turns == old(turns)[1..]
      ensures r == GetAnswer(w, k, old(turns)[0].reply)
    {
      var t := turns[0];
      w := w.ApplyAll(t.others);
      turns := turns[1..];
      r := GetAnswer(w, k, t.reply);
    }

    method Put(k: Key, o: Object) returns (err: Option<Error>)
      requires turns != []
      modifies this
      ensures (w, err) == PutAnswer(old(w).ApplyAll(old(turns)[0].others), k, o, old(turns)[0].reply)
      ensures turns == old(turns)[1..]
    {
      var t := turns[0];
      var answer := PutAnswer(w.ApplyAll(t.others), k, o, t.reply);
      w := answer.0;
      err := answer.1;
      turns := turns[1..];
    }

    /** One try: its calls are the automaton's, and it leaves the automaton where the loop's
        verdict on its result does. It asks for a GET in the next try exactly if its own GET
        failed or its PUT met a conflict. */
    method Try(item: Item, get: bool) returns (r: Ending<(bool, Option<Error>)>)
      modifies this
      ensures r.Returned? ==> |turns| < |old(turns)|
      ensures r.Returned? ==>
                var (again, err) := r.value;
                again <==> (get && GetFails(old(w), old(turns), item.key)) || (err.Some? && err.value.reason == Conflict)
      ensures match r
              case Returned((again, err)) =>
                ItemRun(old(w), item, Trying(get), old(turns)) == ItemRun(w, item, Judge(again, err), turns)
              case CutOff =>
                var end := ItemRun(old(w), item, Trying(get), old(turns));
                turns == [] && end.w == w && end.rest == [] && !end.st.Done?
    {
      var obj := item.obj;
      if get {
        if turns == [] {
          return CutOff;
        }
        var fetched := Get(item.key);
        if fetched.Failure? {
          return Returned((true, Some(fetched.error)));
        }
        obj := fetched.value;
      }
      ghost var st := if get then Fetched(obj) else Trying(false);
      assert ItemRun(old(w), item, Trying(get), old(turns)) == ItemRun(w, item, st, turns);
      if turns == [] {
        return CutOff;
      }
      var err := Put(item.key, obj);
      if err == None {
        return Returned((false, None));
      }
      return Returned((err.value.reason == Conflict, err));
    }

    /** The whole loop, and what its end means for the object and for the other writers. */
    method MigrateOneItem(item: Item) returns (r: Ending<Option<Error>>)
      requires w.Valid() && w.Faithful(item.key, item.obj)
      modifies this
      ensures var end := ItemRun(old(w), item, Trying(false), old(turns));
              && w == end.w && turns == end.rest
              && match r
                 case Returned(err) => end.st == Done(err)
                 case CutOff => turns == [] && !end.st.Done?
      ensures w.Valid() && Evolves(old(w), w)
      ensures r == Returned(None) ==> !w.Lagging(item.key)
      ensures r.Returned? && r.value.Some? ==> !CanRetry(r.value.value)
      ensures |turns| <= |old(turns)|
      ensures Contents(w) == OverwriteAll(Contents(old(w)), OthersUntil(old(turns), turns))
    {
      ItemRunIsSound(w, item, Trying(false), turns);
      var getBeforePut := false;
      while true
        invariant ItemRun(old(w), item, Trying(false), old(turns)) == ItemRun(w, item, Trying(getBeforePut), turns)
        decreases |turns|
      {
        var tried := Try(item, getBeforePut);
        if tried.CutOff? {
          return CutOff;
        }
        var err := tried.value.1;
        getBeforePut := tried.value.0;
        if err == None || err.value.reason == NotFound {
          return Returned(None);
        }
        if CanRetry(err.value) {
          continue;
        }
        return Returned(err);
      }
    }
  }
}
