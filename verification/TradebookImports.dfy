/** When an import is taken: exactly when nothing in it contradicts what is known, and it fits. */
module TradebookImports {
  import opened Wrappers
  import opened Tradebook

  /** No two fills of one key differ, neither in the batch nor against what is there. */
  ghost predicate Consistent(known: seq<Fill>, batch: seq<Fill>) {
    && (forall f, g :: f in batch && g in known && f.key == g.key ==> f == g)
    && (forall f, g :: f in batch && g in batch && f.key == g.key ==> f == g)
  }

  /** The keys of the batch that are not there yet. */
  ghost function NewKeys(known: seq<Fill>, batch: seq<Fill>): set<string> {
    set f | f in batch && !HasKey(known, f.key) :: f.key
  }

  lemma KnownAfter(known: seq<Fill>, added: seq<Fill>, init: seq<Fill>, key: string)
    requires forall f :: f in added ==> f in init
    requires forall f :: f in init ==> f in known + added
    ensures HasKey(known + added, key) <==> HasKey(known, key) || HasKey(init, key)
  {
    if HasKey(known + added, key) {
      var f :| f in known + added && f.key == key;
    }
    if HasKey(known, key) {
      var f :| f in known && f.key == key;
      assert f in known + added;
    }
    if HasKey(init, key) {
      var f :| f in init && f.key == key;
      assert f in known + added;
    }
  }

  lemma ConsistentStep(known: seq<Fill>, init: seq<Fill>, f: Fill)
    requires Consistent(known, init)
    ensures Consistent(known, init + [f]) <==>
      && (forall g :: g in known && g.key == f.key ==> g == f) && forall g :: g in init && g.key == f.key ==> g == f
  {
    if Consistent(known, init + [f]) {
      assert f in init + [f] && forall g :: g in init ==> g in init + [f];
    }
  }

  lemma NewKeysStep(known: seq<Fill>, init: seq<Fill>, f: Fill)
    ensures NewKeys(known, init + [f]) == NewKeys(known, init) + if HasKey(known, f.key) then {} else {f.key}
    ensures f.key in NewKeys(known, init) <==> HasKey(init, f.key) && !HasKey(known, f.key)
  {
    assert f in init + [f] && forall g :: g in init ==> g in init + [f];
  }

  /** Fills are selected exactly when none contradicts another, and then as many as there are new keys. */
  lemma {:induction false} AdditionsIff(known: seq<Fill>, batch: seq<Fill>)
    requires UniqueFills(known)
    ensures Additions(known, batch).Ok? <==> Consistent(known, batch)
    ensures Additions(known, batch).Ok? ==> |Additions(known, batch).value| == |NewKeys(known, batch)|
  {
    if batch == [] {
      assert NewKeys(known, batch) == {};
    } else {
      var init, f := batch[..|batch| - 1], batch[|batch| - 1];
      assert batch == init + [f];
      AdditionsIff(known, init);
      AdditionsAre(known, init);
      if Additions(known, init).Ok? {
        LastAdded(known, init, f, Additions(known, init).value);
      } else {
        assert forall g :: g in init ==> g in batch;
      }
    }
  }

  lemma LastAdded(known: seq<Fill>, init: seq<Fill>, f: Fill, added: seq<Fill>)
    requires Additions(known, init) == Ok(added) && Consistent(known, init) && |added| == |NewKeys(known, init)|
    requires UniqueFills(known + added) && (forall g :: g in added ==> g in init)
    requires forall g :: g in init ==> g in known + added
    ensures var r := Additions(known, init + [f]);
      (r.Ok? <==> Consistent(known, init + [f])) && (r.Ok? ==> |r.value| == |NewKeys(known, init + [f])|)
  {
    hide UniqueFills, Consistent, NewKeys, HasKey, Additions;
    AddedNext(known, init, f, added);
    KnownAfter(known, added, init, f.key);
    ConsistentStep(known, init, f);
    NewKeysStep(known, init, f);
    if HasKey(known + added, f.key) {
      SameContent(known, added, init, f);
    } else {
      NoOther(known, init, f);
    }
  }

  lemma AddedNext(known: seq<Fill>, init: seq<Fill>, f: Fill, added: seq<Fill>)
    requires Additions(known, init) == Ok(added)
    ensures Additions(known, init + [f]) ==
            if !HasKey(known + added, f.key) then Ok(added + [f])
            else if f in known + added then Ok(added) else Err(DuplicateConflict)
  {
    hide HasKey;
    assert (init + [f])[..|init|] == init;
  }

  lemma NoOther(known: seq<Fill>, init: seq<Fill>, f: Fill)
    requires !HasKey(known, f.key) && !HasKey(init, f.key)
    ensures (forall g :: g in known ==> g.key != f.key) && forall g :: g in init ==> g.key != f.key
  {
  }

  lemma SameContent(known: seq<Fill>, added: seq<Fill>, init: seq<Fill>, f: Fill)
    requires UniqueFills(known + added) && HasKey(known + added, f.key)
    requires (forall g :: g in added ==> g in init) && forall g :: g in init ==> g in known + added
    ensures f in known + added <==>
      (forall g :: g in known && g.key == f.key ==> g == f) && forall g :: g in init && g.key == f.key ==> g == f
  {
    var other :| other in known + added && other.key == f.key;
    if f in known + added {
      forall g | g in known + added && g.key == f.key ensures g == f {
        UniqueKey(known + added, g, f);
      }
    } else {
      assert other in known || other in added;
    }
  }

  /**
   A batch is taken exactly when it has one to a hundred and twenty fills of the same client, contradicts nothing, and
   leaves at most five thousand fills.
   */
  lemma ImportIff(b: Book, client: string, batch: seq<Fill>)
    requires UniqueFills(b.fills)
    ensures Import(b, client, batch).Ok? <==>
      && 1 <= |batch| <= 120 && (b.client.Some? ==> b.client.value == client) && Consistent(b.fills, batch)
      && |b.fills| + |NewKeys(b.fills, batch)| <= 5000
  {
    hide UniqueFills, Additions, Consistent, NewKeys;
    AdditionsIff(b.fills, batch);
  }
}
