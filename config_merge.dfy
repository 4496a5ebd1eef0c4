/** The configuration deep merge `dictmerge(a, b)`: the override document `b`
    is folded into the base document `a` key by key. Nested dicts are merged
    recursively, a leaf that compares equal under Python's `==` is left as it
    is, any other value of `b` replaces the one in `a`, and keys only in `b`
    are added. The same code appears in src/lib/firmware.py, src/firmware.py
    and src/main.py. */
module ConfigMerge {
  import opened JsonValue

  /** Whether `dictmerge` recurses at `key`: both sides hold a dict there. */
  predicate Recurses(a: map<string, Json>, b: map<string, Json>, key: string) {
    key in a && key in b && a[key].Obj? && b[key].Obj?
  }

  /** The document `a` becomes after `dictmerge(a, b)`. */
  function Merge(a: map<string, Json>, b: map<string, Json>): (r: map<string, Json>)
    ensures r.Keys == a.Keys + b.Keys
    ensures forall k :: k in a && k !in b ==> r[k] == a[k]
    decreases Obj(b)
  {
    map k | k in a.Keys + b.Keys ::
      if k !in b then a[k]
      else if Recurses(a, b, k) then Obj(Merge(a[k].fields, b[k].fields))
      else if k in a && PyEq(a[k], b[k]) then a[k]
      else b[k]
  }

  /** The loop of `dictmerge`: `a` is updated one key of `b` at a time, and a
      nested pair of dicts is merged by the recursive call before it is stored
      back. The keys of `b` are taken in an arbitrary order, as a MicroPython
      dict yields them; the result does not depend on it. */
  method DictMerge(a: map<string, Json>, b: map<string, Json>) returns (r: map<string, Json>)
    ensures r == Merge(a, b)
    decreases Obj(b)
  {
    ghost var merged := Merge(a, b);
    r := a;
    var todo := b.Keys;
    while todo != {}
      invariant todo <= b.Keys
      invariant r.Keys == a.Keys + (b.Keys - todo)
      invariant forall k :: k in r && k !in todo ==> r[k] == merged[k]
      invariant forall k :: k in todo && k in a ==> r[k] == a[k]
      decreases todo
    {
      var key :| key in todo;
      MergeAt(a, b, key);
      if key in r {
        if r[key].Obj? && b[key].Obj? {
          var nested := DictMerge(r[key].fields, b[key].fields);
          r := r[key := Obj(nested)];
        } else if !PyEq(r[key], b[key]) {
          r := r[key := b[key]];
        }
      } else {
        r := r[key := b[key]];
      }
      assert r[key] == merged[key];
      todo := todo - {key};
    }
  }

  /** The merged value at a key of the override. */
  lemma MergeAt(a: map<string, Json>, b: map<string, Json>, key: string)
    requires key in b
    ensures Merge(a, b)[key]
            == if Recurses(a, b, key) then Obj(Merge(a[key].fields, b[key].fields))
               else if key in a && PyEq(a[key], b[key]) then a[key]
               else b[key]
  {
  }

  /** Where both sides are not dicts, the merged value equals `b`'s under
      Python's `==`: it is `b`'s value, or `a`'s when the two compared equal. */
  lemma MergeOverrides(a: map<string, Json>, b: map<string, Json>, key: string)
    requires key in b && !Recurses(a, b, key)
    ensures key in Merge(a, b) && PyEq(Merge(a, b)[key], b[key])
    ensures Merge(a, b)[key] == b[key] || (key in a && Merge(a, b)[key] == a[key])
  {
    PyEqReflexive(b[key]);
  }

  /** Where both sides are dicts, the merged value is their merge. */
  lemma MergeRecurses(a: map<string, Json>, b: map<string, Json>, key: string)
    requires Recurses(a, b, key)
    ensures key in Merge(a, b)
    ensures Merge(a, b)[key] == Obj(Merge(a[key].fields, b[key].fields))
  {
  }

  /** Two values equal under Python's `==` are both dicts or both not. */
  lemma PyEqKeepsObj(x: Json, y: Json)
    requires PyEq(x, y)
    ensures x.Obj? <==> y.Obj?
  {
  }

  /** Merging a document into itself changes nothing. */
  lemma {:induction false} MergeSelf(a: map<string, Json>)
    ensures Merge(a, a) == a
    decreases Obj(a)
  {
    var m := Merge(a, a);
    forall k | k in a ensures m[k] == a[k] {
      if a[k].Obj? {
        MergeSelf(a[k].fields);
      } else {
        PyEqReflexive(a[k]);
      }
    }
  }

  /** Merging the same override twice gives the result of merging it once. */
  lemma {:induction false} MergeIdempotent(a: map<string, Json>, b: map<string, Json>)
    ensures Merge(Merge(a, b), b) == Merge(a, b)
    decreases Obj(b)
  {
    var once := Merge(a, b);
    var twice := Merge(once, b);
    forall k | k in once ensures twice[k] == once[k] {
      if k in b {
        if Recurses(a, b, k) {
          MergeIdempotent(a[k].fields, b[k].fields);
        } else if k in a && PyEq(a[k], b[k]) {
          PyEqKeepsObj(a[k], b[k]);
        } else if b[k].Obj? {
          MergeSelf(b[k].fields);
        } else {
          PyEqReflexive(b[k]);
        }
      }
    }
  }

  /** A key of the base document is never removed, whatever the override. */
  lemma MergeKeepsKey(a: map<string, Json>, b: map<string, Json>, key: string)
    requires key in a
    ensures key in Merge(a, b)
  {
  }
}
