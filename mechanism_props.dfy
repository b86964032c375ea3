/** Properties of the JSON mechanism ordering: one entry per reaction with
    `''` defaults, alignment through zip and unzip, the formula order, the
    group maxima held in `sens_dct`, and the final order. */
module MechanismProps {
  import opened Wrappers
  import opened Text
  import opened Dict
  import opened StableSort
  import opened Mechanism

  // ---------------------------------------------------------------------
  // The parallel lists

  /** Zipping with one more element in every list adds that entry. */
  lemma ZipAppend(l: Lists, e: Entry)
    requires Aligned(l)
    ensures Aligned(Append(l, e)) && |Zip(l)| == |l.names|
    ensures Zip(Append(l, e)) == Zip(l) + [e]
  {
  }

  /** The lists `l` are what the loop builds from `mech`: aligned, one
      entry per reaction, in order. */
  ghost predicate Built(mech: seq<JsonRxn>, l: Lists, formulaOf: seq<string> -> string)
  {
    && Aligned(l) && |l.names| == |mech| && |Zip(l)| == |mech|
    && forall i :: 0 <= i < |mech| ==> Readable(mech[i]) && Zip(l)[i] == EntryOf(mech[i], formulaOf)
  }

  lemma BuiltStep(init: seq<JsonRxn>, r: JsonRxn, l: Lists, formulaOf: seq<string> -> string)
    requires Built(init, l, formulaOf) && Readable(r)
    ensures Built(init + [r], Append(l, EntryOf(r, formulaOf)), formulaOf)
  {
    var mech := init + [r];
    var l' := Append(l, EntryOf(r, formulaOf));
    ZipAppend(l, EntryOf(r, formulaOf));
    forall i | 0 <= i < |mech| ensures Readable(mech[i]) && Zip(l')[i] == EntryOf(mech[i], formulaOf) {
      if i < |init| {
        assert mech[i] == init[i] && Zip(l')[i] == Zip(l)[i];
      }
    }
  }

  /** Every reaction is readable, by prefixes as the loop runs. */
  ghost predicate AllReadable(mech: seq<JsonRxn>)
  {
    |mech| == 0 || (AllReadable(mech[..|mech| - 1]) && Readable(mech[|mech| - 1]))
  }

  lemma {:induction false} AllReadableIff(mech: seq<JsonRxn>)
    ensures AllReadable(mech) <==> forall i :: 0 <= i < |mech| ==> Readable(mech[i])
  {
    if |mech| > 0 {
      var n := |mech| - 1;
      var init := mech[..n];
      AllReadableIff(init);
      assert forall i :: 0 <= i < n ==> init[i] == mech[i];
    }
  }

  lemma {:induction false} BuildOkReadable(mech: seq<JsonRxn>, formulaOf: seq<string> -> string)
    ensures BuildSpec(mech, formulaOf).Ok? <==> AllReadable(mech)
  {
    if |mech| > 0 {
      BuildOkReadable(mech[..|mech| - 1], formulaOf);
    }
  }

  lemma BuildOkIff(mech: seq<JsonRxn>, formulaOf: seq<string> -> string)
    ensures BuildSpec(mech, formulaOf).Ok? <==> forall i :: 0 <= i < |mech| ==> Readable(mech[i])
  {
    BuildOkReadable(mech, formulaOf);
    AllReadableIff(mech);
  }

  lemma {:induction false} BuildOkBuilt(mech: seq<JsonRxn>, formulaOf: seq<string> -> string)
    requires BuildSpec(mech, formulaOf).Ok?
    ensures Built(mech, BuildSpec(mech, formulaOf).value, formulaOf)
  {
    if |mech| > 0 {
      var n := |mech| - 1;
      var init := mech[..n];
      assert mech == init + [mech[n]];
      BuildOkBuilt(init, formulaOf);
      BuiltStep(init, mech[n], BuildSpec(init, formulaOf).value, formulaOf);
    }
  }

  /** The loop gets through exactly when every reaction has a name and a
      reactant; then each reaction contributes one entry, in order, with
      `''` for a missing optional field and empty product lists for a
      missing `Products` (see `EntryOf`). */
  lemma BuildOk(mech: seq<JsonRxn>, formulaOf: seq<string> -> string)
    ensures BuildSpec(mech, formulaOf).Ok? <==> forall i :: 0 <= i < |mech| ==> Readable(mech[i])
    ensures BuildSpec(mech, formulaOf).Ok? ==>
      var l := BuildSpec(mech, formulaOf).value;
      && Aligned(l) && |l.names| == |mech| && |Zip(l)| == |mech|
      && forall i :: 0 <= i < |mech| ==> Readable(mech[i]) && Zip(l)[i] == EntryOf(mech[i], formulaOf)
  {
    BuildOkIff(mech, formulaOf);
    if BuildSpec(mech, formulaOf).Ok? {
      BuildOkBuilt(mech, formulaOf);
    }
  }

  /** Otherwise the error names the first reaction that fails, and why. */
  lemma {:induction false} BuildErr(mech: seq<JsonRxn>, formulaOf: seq<string> -> string)
    requires BuildSpec(mech, formulaOf).Err?
    ensures var e := BuildSpec(mech, formulaOf).error;
      && (e.MissingName? || e.NoReactantFormula?)
      && e.index < |mech| && !Readable(mech[e.index])
      && (e.MissingName? <==> mech[e.index].name.None?)
      && forall i :: 0 <= i < e.index ==> Readable(mech[i])
  {
    var n := |mech| - 1;
    var init := mech[..n];
    assert forall i :: 0 <= i < n ==> init[i] == mech[i];
    if BuildSpec(init, formulaOf).Err? {
      BuildErr(init, formulaOf);
    } else {
      BuildOk(init, formulaOf);
    }
  }

  /** Unzipping what was zipped gives back the lists when they are aligned,
      so every reaction's fields stay together. */
  lemma UnzipZip(l: Lists)
    requires Aligned(l)
    ensures |Zip(l)| == |l.names|
    ensures Unzip(Zip(l)) == l
  {
  }

  lemma ZipUnzip(es: seq<Entry>)
    ensures Aligned(Unzip(es))
    ensures Zip(Unzip(es)) == es
  {
  }

  // ---------------------------------------------------------------------
  // The finding: a reaction without `Products`

  const ReactionA := JsonRxn(Some("a"), Some([Species("ia", 1, "sa")]), None, Some(1.0), None, None, None)
  const ReactionB := JsonRxn(Some("b"), Some([Species("ib", 1, "sb")]), Some([Species("ic", 1, "pc")]),
                             Some(2.0), None, None, None)

  /** When every reaction has `Products` the loop as written and the
      corrected one build the same lists. */
  lemma {:induction false} AsWrittenAgrees(mech: seq<JsonRxn>, formulaOf: seq<string> -> string)
    requires forall i :: 0 <= i < |mech| ==> mech[i].products.Some?
    ensures BuildAsWritten(mech, formulaOf) == BuildSpec(mech, formulaOf)
  {
    if |mech| > 0 {
      var n := |mech| - 1;
      var init := mech[..n];
      assert forall i :: 0 <= i < n ==> init[i] == mech[i];
      AsWrittenAgrees(init, formulaOf);
    }
  }

  /** The loop as written fails exactly when the corrected one does, with
      the same error, so `BuildErr` and `BuildErrSticks` hold of it too. */
  lemma {:induction false} AsWrittenErrAgrees(mech: seq<JsonRxn>, formulaOf: seq<string> -> string)
    ensures BuildAsWritten(mech, formulaOf).Err? <==> BuildSpec(mech, formulaOf).Err?
    ensures BuildSpec(mech, formulaOf).Err? ==>
      BuildAsWritten(mech, formulaOf).error == BuildSpec(mech, formulaOf).error
  {
    if |mech| > 0 {
      AsWrittenErrAgrees(mech[..|mech| - 1], formulaOf);
    }
  }

  /** And the whole branch as written ends with the same error when the
      loop fails. */
  lemma MechanismAsWrittenBuildError(mech: seq<JsonRxn>, formulaOf: seq<string> -> string)
    requires BuildSpec(mech, formulaOf).Err?
    ensures MechanismAsWritten(mech, formulaOf) == MechanismSpec(mech, formulaOf)
  {
    AsWrittenErrAgrees(mech, formulaOf);
  }

  /** So then the branch as written ends as the corrected one does, and
      every property proved of `MechanismSpec` holds of it. */
  lemma MechanismAsWrittenAgrees(mech: seq<JsonRxn>, formulaOf: seq<string> -> string)
    requires forall i :: 0 <= i < |mech| ==> mech[i].products.Some?
    ensures MechanismAsWritten(mech, formulaOf) == MechanismSpec(mech, formulaOf)
  {
    AsWrittenAgrees(mech, formulaOf);
  }

  /** As written, a reaction without `Products` shortens the product lists,
      so `zip` drops the last reaction and pairs the first with the
      products of the second. */
  lemma AsWrittenMisaligns(formulaOf: seq<string> -> string)
    ensures BuildAsWritten([ReactionA, ReactionB], formulaOf).Ok?
    ensures var es := Zip(BuildAsWritten([ReactionA, ReactionB], formulaOf).value);
      |es| == 1 && es[0].name == "a" && es[0].prdNames == ["pc"]
  {
    var mech := [ReactionA, ReactionB];
    var one := [ReactionA];
    assert mech[..1] == one;
    assert one[..0] == [];
    assert BuildAsWritten(one[..0], formulaOf) == Ok(NoLists);
    assert Readable(ReactionA) && Readable(ReactionB);
    var l0 := AddRxn(NoLists, ReactionA, 0, formulaOf);
    assert l0 == Ok(Append(NoLists, EntryOf(ReactionA, formulaOf)));
    var l1 := BuildAsWritten(one, formulaOf);
    assert l1 == AddRxnAsWritten(NoLists, ReactionA, 0, formulaOf);
    assert l1.Ok? && l1.value.prdNames == [] && |l1.value.names| == 1;
  }

  /** With the product lists always appended, both reactions keep their own
      products. */
  lemma CorrectedAligns(formulaOf: seq<string> -> string)
    ensures BuildSpec([ReactionA, ReactionB], formulaOf).Ok?
    ensures var es := Zip(BuildSpec([ReactionA, ReactionB], formulaOf).value);
      |es| == 2 && es[0].name == "a" && es[0].prdNames == [] && es[1].name == "b" && es[1].prdNames == ["pc"]
  {
    var mech := [ReactionA, ReactionB];
    assert Readable(mech[0]) && Readable(mech[1]);
    BuildOk(mech, formulaOf);
    assert Names([Species("ic", 1, "pc")]) == ["pc"];
  }

  // ---------------------------------------------------------------------
  // The two sort keys

  lemma FormulaOrderStrictWeak()
    ensures StrictWeak(FormulaOrder())
  {
    var lt := FormulaOrder();
    forall a: Entry ensures !lt(a, a) {
      LexLessIrreflexive(a.formula);
    }
    forall a: Entry, b: Entry, c: Entry | lt(a, b) && lt(b, c) ensures lt(a, c) {
      LexLessTransitive(a.formula, b.formula, c.formula);
    }
    forall a: Entry, b: Entry, c: Entry | lt(a, c) ensures lt(a, b) || lt(b, c) {
      if !lt(a, b) && !lt(b, c) {
        if a.formula != b.formula { LexLessTotal(a.formula, b.formula); }
        if b.formula != c.formula { LexLessTotal(b.formula, c.formula); }
        if a.formula == c.formula {
          LexLessIrreflexive(a.formula);
        } else if LexLess(c.formula, b.formula) && LexLess(b.formula, a.formula) {
          LexLessTransitive(c.formula, b.formula, a.formula);
          LexLessTransitive(a.formula, c.formula, a.formula);
          LexLessIrreflexive(a.formula);
        } else if LexLess(c.formula, b.formula) {
          LexLessTransitive(a.formula, c.formula, a.formula);
          LexLessIrreflexive(a.formula);
        } else {
          LexLessTransitive(a.formula, c.formula, a.formula);
          LexLessIrreflexive(a.formula);
        }
      }
    }
  }

  lemma SensOrderStrictWeak(d: Dict<string, Field<real>>)
    ensures StrictWeak(SensOrder(d))
  {
  }

  /** Non-decreasing in formula. */
  ghost predicate FormulaSorted(es: seq<Entry>)
  {
    forall i, j :: 0 <= i < j < |es| ==> !LexLess(es[j].formula, es[i].formula)
  }

  /** The first sort rearranges the entries into non-decreasing formula
      order. */
  lemma ByFormulaFacts(es: seq<Entry>)
    ensures |ByFormula(es)| == |es|
    ensures multiset(ByFormula(es)) == multiset(es)
    ensures FormulaSorted(ByFormula(es))
  {
    FormulaOrderStrictWeak();
    SortRearranges(es, FormulaOrder());
    SortOrders(es, FormulaOrder());
  }

  // ---------------------------------------------------------------------
  // The group maxima

  /** The formulas strictly increase. */
  ghost predicate Increasing(fs: seq<string>)
  {
    forall a, b :: 0 <= a < b < |fs| ==> LexLess(fs[a], fs[b])
  }

  /** Every formula of the first `k` entries is among `fs`. */
  ghost predicate Covers(es: seq<Entry>, k: nat, fs: seq<string>)
    requires k <= |es|
  {
    forall i :: 0 <= i < k ==> es[i].formula in fs
  }

  /** Each value beside a formula is the sensitivity of one of the first
      `k` entries with that formula. */
  ghost predicate Witnessed(es: seq<Entry>, k: nat, fs: seq<string>, ms: seq<Field<real>>)
    requires k <= |es| && |fs| == |ms|
  {
    forall j :: 0 <= j < |fs| ==> exists i :: 0 <= i < k && es[i].formula == fs[j] && es[i].sens == ms[j]
  }

  /** No one of the first `k` entries exceeds the value beside its formula. */
  ghost predicate Bounded(es: seq<Entry>, k: nat, fs: seq<string>, ms: seq<Field<real>>)
    requires k <= |es| && |fs| == |ms|
  {
    forall j, i :: 0 <= j < |fs| && 0 <= i < k && es[i].formula == fs[j] ==> !FieldGt(es[i].sens, ms[j])
  }

  /** What holds after `k` entries of a formula-sorted list, of the closed
      formulas with the current one (`fs`) and the sensitivities beside them
      (`ms`): the formulas strictly increase and end with the last entry's,
      every formula seen is among them, and each holds the sensitivity of
      one of its entries that no entry of its formula exceeds. */
  ghost predicate GroupInv(es: seq<Entry>, k: nat, fs: seq<string>, ms: seq<Field<real>>)
  {
    && 0 < k <= |es| && |fs| == |ms| > 0
    && fs[|fs| - 1] == es[k - 1].formula
    && Increasing(fs) && Covers(es, k, fs) && Witnessed(es, k, fs, ms) && Bounded(es, k, fs, ms)
  }

  lemma FieldMaxFacts(a: Field<real>, b: Field<real>, x: Field<real>)
    ensures FieldMax(a, b) == a || FieldMax(a, b) == b
    ensures !FieldGt(b, FieldMax(a, b))
    ensures !FieldGt(x, a) ==> !FieldGt(x, FieldMax(a, b))
  {
  }

  lemma SameWitnessed(es: seq<Entry>, k: nat, fs: seq<string>, ms0: seq<Field<real>>)
    requires k < |es| && |fs| == |ms0| > 0 && Witnessed(es, k, fs, ms0)
    requires es[k].formula == fs[|fs| - 1]
    ensures Witnessed(es, k + 1, fs, ms0[..|ms0| - 1] + [FieldMax(ms0[|ms0| - 1], es[k].sens)])
  {
    var last := |fs| - 1;
    var ms := ms0[..last] + [FieldMax(ms0[last], es[k].sens)];
    FieldMaxFacts(ms0[last], es[k].sens, es[k].sens);
    forall j | 0 <= j < |fs| ensures exists i :: 0 <= i < k + 1 && es[i].formula == fs[j] && es[i].sens == ms[j] {
      if j < last || ms[j] == ms0[j] {
        var i :| 0 <= i < k && es[i].formula == fs[j] && es[i].sens == ms0[j];
        assert es[i].sens == ms[j];
      } else {
        assert es[k].formula == fs[j] && es[k].sens == ms[j];
      }
    }
  }

  lemma SameBounded(es: seq<Entry>, k: nat, fs: seq<string>, ms0: seq<Field<real>>)
    requires k < |es| && |fs| == |ms0| > 0 && Bounded(es, k, fs, ms0) && Increasing(fs)
    requires es[k].formula == fs[|fs| - 1]
    ensures Bounded(es, k + 1, fs, ms0[..|ms0| - 1] + [FieldMax(ms0[|ms0| - 1], es[k].sens)])
  {
    var last := |fs| - 1;
    var ms := ms0[..last] + [FieldMax(ms0[last], es[k].sens)];
    forall j, i | 0 <= j < |fs| && 0 <= i < k + 1 && es[i].formula == fs[j] ensures !FieldGt(es[i].sens, ms[j]) {
      if j < last {
        if i == k {
          assert LexLess(fs[j], fs[last]);
          LexLessIrreflexive(fs[j]);
        }
        assert ms[j] == ms0[j];
      } else {
        FieldMaxFacts(ms0[last], es[k].sens, es[i].sens);
      }
    }
  }

  /** The entry continues the current group. */
  lemma SameGroupStep(es: seq<Entry>, k: nat, fs: seq<string>, ms0: seq<Field<real>>)
    requires k < |es| && GroupInv(es, k, fs, ms0)
    requires es[k].formula == fs[|fs| - 1]
    ensures GroupInv(es, k + 1, fs, ms0[..|ms0| - 1] + [FieldMax(ms0[|ms0| - 1], es[k].sens)])
  {
    SameWitnessed(es, k, fs, ms0);
    SameBounded(es, k, fs, ms0);
    assert Covers(es, k + 1, fs) by {
      forall i | 0 <= i < k + 1 ensures es[i].formula in fs {
        if i == k {
          assert fs[|fs| - 1] == es[i].formula;
        }
      }
    }
  }

  lemma NewIncreasing(fs0: seq<string>, x: string)
    requires |fs0| > 0 && Increasing(fs0) && LexLess(fs0[|fs0| - 1], x)
    ensures Increasing(fs0 + [x])
  {
    var fs := fs0 + [x];
    var last := |fs0|;
    forall a, b | 0 <= a < b < |fs| ensures LexLess(fs[a], fs[b]) {
      if b == last && a < last - 1 {
        LexLessTransitive(fs[a], fs0[last - 1], x);
      }
    }
  }

  lemma NewCovers(es: seq<Entry>, k: nat, fs0: seq<string>)
    requires k < |es| && Covers(es, k, fs0)
    ensures Covers(es, k + 1, fs0 + [es[k].formula])
  {
    var fs := fs0 + [es[k].formula];
    forall i | 0 <= i < k + 1 ensures es[i].formula in fs {
      if i < k {
        assert es[i].formula in fs0;
      } else {
        assert fs[|fs0|] == es[i].formula;
      }
    }
  }

  lemma NewWitnessed(es: seq<Entry>, k: nat, fs0: seq<string>, ms0: seq<Field<real>>)
    requires k < |es| && |fs0| == |ms0| && Witnessed(es, k, fs0, ms0)
    ensures Witnessed(es, k + 1, fs0 + [es[k].formula], ms0 + [es[k].sens])
  {
    var fs := fs0 + [es[k].formula];
    var ms := ms0 + [es[k].sens];
    forall j | 0 <= j < |fs| ensures exists i :: 0 <= i < k + 1 && es[i].formula == fs[j] && es[i].sens == ms[j] {
      if j < |fs0| {
        var i :| 0 <= i < k && es[i].formula == fs0[j] && es[i].sens == ms0[j];
        assert es[i].formula == fs[j] && es[i].sens == ms[j];
      } else {
        assert es[k].formula == fs[j] && es[k].sens == ms[j];
      }
    }
  }

  lemma NewBounded(es: seq<Entry>, k: nat, fs0: seq<string>, ms0: seq<Field<real>>)
    requires k < |es| && |fs0| == |ms0| && Bounded(es, k, fs0, ms0) && Covers(es, k, fs0)
    requires es[k].formula !in fs0
    ensures Bounded(es, k + 1, fs0 + [es[k].formula], ms0 + [es[k].sens])
  {
    var fs := fs0 + [es[k].formula];
    var ms := ms0 + [es[k].sens];
    var last := |fs0|;
    forall j, i | 0 <= j < |fs| && 0 <= i < k + 1 && es[i].formula == fs[j] ensures !FieldGt(es[i].sens, ms[j]) {
      if j < last && i == k {
        assert false;
      } else if j == last && i < k {
        assert false;
      } else if j < last {
        assert fs[j] == fs0[j] && ms[j] == ms0[j];
      }
    }
  }

  /** The entry opens a new group. */
  lemma NewGroupStep(es: seq<Entry>, k: nat, fs0: seq<string>, ms0: seq<Field<real>>)
    requires k < |es| && GroupInv(es, k, fs0, ms0) && FormulaSorted(es)
    requires es[k].formula != fs0[|fs0| - 1]
    ensures GroupInv(es, k + 1, fs0 + [es[k].formula], ms0 + [es[k].sens])
  {
    var x := es[k].formula;
    var last := |fs0| - 1;
    assert !LexLess(x, es[k - 1].formula);
    LexLessTotal(fs0[last], x);
    NewIncreasing(fs0, x);
    assert x !in fs0 by {
      forall j | 0 <= j < |fs0| ensures fs0[j] != x {
        var fs := fs0 + [x];
        assert LexLess(fs[j], fs[|fs0|]);
        LexLessIrreflexive(x);
      }
    }
    NewCovers(es, k, fs0);
    NewWitnessed(es, k, fs0, ms0);
    NewBounded(es, k, fs0, ms0);
  }

  /** The loop state after `k` entries, with the current group closed. */
  ghost function Closed(es: seq<Entry>, k: nat): (seq<string>, seq<Field<real>>)
    requires 0 < |es| && k <= |es|
  {
    var st := ScanSpec(es, k);
    (st.formulas + [st.oldFormula], st.maxima + [st.sens])
  }

  lemma ScanBase(es: seq<Entry>)
    requires 0 < |es|
    ensures Closed(es, 1) == ([es[0].formula], [es[0].sens])
  {
    var st0 := ScanSpec(es, 0);
    var st1 := ScanSpec(es, 1);
    assert st0 == Scan(es[0].formula, es[0].sens, [], []);
    assert st1 == ScanStep(st0, es[0]);
    assert FieldMax(es[0].sens, es[0].sens) == es[0].sens;
    assert st1 == Scan(es[0].formula, es[0].sens, [], []);
    assert st1.formulas + [st1.oldFormula] == [es[0].formula];
    assert st1.maxima + [st1.sens] == [es[0].sens];
  }

  lemma {:induction false} ScanFacts(es: seq<Entry>, k: nat)
    requires 0 < k <= |es| && FormulaSorted(es)
    ensures GroupInv(es, k, Closed(es, k).0, Closed(es, k).1)
  {
    if k == 1 {
      ScanBase(es);
      assert es[0].formula in Closed(es, 1).0;
    } else {
      ScanFacts(es, k - 1);
      var st0 := ScanSpec(es, k - 1);
      var e := es[k - 1];
      assert ScanSpec(es, k) == ScanStep(st0, e);
      var (fs0, ms0) := Closed(es, k - 1);
      if e.formula == st0.oldFormula {
        SameGroupStep(es, k - 1, fs0, ms0);
        assert ms0[..|ms0| - 1] == st0.maxima;
      } else {
        NewGroupStep(es, k - 1, fs0, ms0);
      }
    }
  }

  /** On a formula-sorted list, `ordered_formula` has no duplicates and
      holds every formula of the list, and the sensitivity beside each
      formula is that of one of its entries and exceeded by none. */
  lemma GroupsFacts(es: seq<Entry>, fs: seq<string>, ms: seq<Field<real>>)
    requires 0 < |es| && FormulaSorted(es)
    requires (fs, ms) == Groups(es)
    ensures |fs| == |ms|
    ensures forall a, b :: 0 <= a < b < |fs| ==> fs[a] != fs[b]
    ensures forall f :: f in fs <==> exists i :: 0 <= i < |es| && es[i].formula == f
    ensures forall j :: 0 <= j < |fs| ==> exists i :: 0 <= i < |es| && es[i].formula == fs[j] && es[i].sens == ms[j]
    ensures forall j, i :: 0 <= j < |fs| && 0 <= i < |es| && es[i].formula == fs[j] ==> !FieldGt(es[i].sens, ms[j])
  {
    ScanFacts(es, |es|);
    assert (fs, ms) == Closed(es, |es|);
    forall a, b | 0 <= a < b < |fs| ensures fs[a] != fs[b] {
      LexLessIrreflexive(fs[a]);
    }
    forall f | f in fs ensures exists i :: 0 <= i < |es| && es[i].formula == f {
      var j :| 0 <= j < |fs| && fs[j] == f;
    }
  }

  /** With distinct formulas, `sens_dct` has exactly one key per formula
      and maps each to the value beside it. */
  lemma {:induction false} SensDctFacts(fs: seq<string>, ms: seq<Field<real>>)
    requires |fs| == |ms|
    requires forall a, b :: 0 <= a < b < |fs| ==> fs[a] != fs[b]
    ensures UniqueKeys(SensDct(fs, ms)) && |SensDct(fs, ms)| == |fs|
    ensures forall f :: Has(SensDct(fs, ms), f) <==> f in fs
    ensures forall j :: 0 <= j < |fs| ==> Has(SensDct(fs, ms), fs[j]) && Get(SensDct(fs, ms), fs[j]) == ms[j]
  {
    if |fs| > 0 {
      var n := |fs| - 1;
      var fs0, ms0 := fs[..n], ms[..n];
      SensDctFacts(fs0, ms0);
      assert fs[n] !in fs0;
      var d0 := SensDct(fs0, ms0);
      assert fs == fs0 + [fs[n]];
      forall j | 0 <= j < |fs| ensures Has(SensDct(fs, ms), fs[j]) && Get(SensDct(fs, ms), fs[j]) == ms[j] {
        if j < n {
          assert fs0[j] == fs[j] && ms0[j] == ms[j];
        }
      }
    }
  }

  /** `d` has a key exactly for each formula of `es`, and holds under it the
      sensitivity of one of that formula's entries that no entry of the
      formula exceeds. */
  ghost predicate IsGroupMax(d: Dict<string, Field<real>>, es: seq<Entry>)
  {
    && UniqueKeys(d)
    && (forall f :: Has(d, f) <==> exists e :: e in es && e.formula == f)
    && (forall f :: Has(d, f) ==> exists e :: e in es && e.formula == f && e.sens == Get(d, f))
    && (forall f, e :: Has(d, f) && e in es && e.formula == f ==> !FieldGt(e.sens, Get(d, f)))
  }

  /** The table built from the closed groups of a formula-sorted list. */
  lemma TableFacts(bf: seq<Entry>, fs: seq<string>, ms: seq<Field<real>>, d: Dict<string, Field<real>>)
    requires |fs| == |ms|
    requires UniqueKeys(d) && forall f :: Has(d, f) <==> f in fs
    requires forall j :: 0 <= j < |fs| ==> Has(d, fs[j]) && Get(d, fs[j]) == ms[j]
    requires forall f :: f in fs <==> exists i :: 0 <= i < |bf| && bf[i].formula == f
    requires forall j :: 0 <= j < |fs| ==> exists i :: 0 <= i < |bf| && bf[i].formula == fs[j] && bf[i].sens == ms[j]
    requires forall j, i :: 0 <= j < |fs| && 0 <= i < |bf| && bf[i].formula == fs[j] ==> !FieldGt(bf[i].sens, ms[j])
    ensures IsGroupMax(d, bf)
  {
    forall f ensures Has(d, f) <==> exists e :: e in bf && e.formula == f {
      if Has(d, f) {
        var i :| 0 <= i < |bf| && bf[i].formula == f;
        assert bf[i] in bf;
      }
      if exists e :: e in bf && e.formula == f {
        var e :| e in bf && e.formula == f;
        var i :| 0 <= i < |bf| && bf[i] == e;
        assert f in fs;
      }
    }
    forall f | Has(d, f) ensures exists e :: e in bf && e.formula == f && e.sens == Get(d, f) {
      var j :| 0 <= j < |fs| && fs[j] == f;
      var i :| 0 <= i < |bf| && bf[i].formula == fs[j] && bf[i].sens == ms[j];
      assert bf[i] in bf;
    }
    forall f, e | Has(d, f) && e in bf && e.formula == f ensures !FieldGt(e.sens, Get(d, f)) {
      var j :| 0 <= j < |fs| && fs[j] == f;
      var i :| 0 <= i < |bf| && bf[i] == e;
    }
  }

  /** The property depends on the entries only through their membership. */
  lemma GroupMaxMembers(d: Dict<string, Field<real>>, a: seq<Entry>, b: seq<Entry>)
    requires forall e :: e in a <==> e in b
    requires IsGroupMax(d, a)
    ensures IsGroupMax(d, b)
  {
  }

  /** `sens_dct[f]` is the largest sensitivity among the entries with
      formula `f`, and it has one key per distinct formula. */
  lemma SensTableIsGroupMax(es: seq<Entry>)
    requires 0 < |es|
    ensures IsGroupMax(SensTable(es), es)
  {
    ByFormulaMembers(es);
    ByFormulaFacts(es);
    GroupTable(ByFormula(es));
    GroupMaxMembers(SensTable(es), ByFormula(es), es);
  }

  lemma ByFormulaMembers(es: seq<Entry>)
    ensures forall e :: e in ByFormula(es) <==> e in es
  {
    ByFormulaFacts(es);
    forall e ensures e in es <==> e in ByFormula(es) {
      assert e in multiset(es) <==> e in multiset(ByFormula(es));
    }
  }

  /** The table of a formula-sorted list. */
  lemma GroupTable(bf: seq<Entry>)
    requires 0 < |bf| && FormulaSorted(bf)
    ensures IsGroupMax(SensDct(Groups(bf).0, Groups(bf).1), bf)
  {
    var fs, ms := Groups(bf).0, Groups(bf).1;
    GroupsFacts(bf, fs, ms);
    SensDctFacts(fs, ms);
    TableFacts(bf, fs, ms, SensDct(fs, ms));
  }

  // ---------------------------------------------------------------------
  // The whole branch

  /** The loop's error is the branch's error. */
  lemma MechanismBuildError(mech: seq<JsonRxn>, formulaOf: seq<string> -> string)
    requires BuildSpec(mech, formulaOf).Err?
    ensures MechanismSpec(mech, formulaOf) == Err(BuildSpec(mech, formulaOf).error)
  {
  }

  /** `RXN_INFO_LST[0]` fails exactly when the loop got through a file
      without reactions. */
  lemma MechanismEmpty(mech: seq<JsonRxn>, formulaOf: seq<string> -> string)
    ensures MechanismSpec(mech, formulaOf) == Err(EmptyMechanism) <==> BuildSpec(mech, formulaOf).Ok? && |mech| == 0
  {
    if BuildSpec(mech, formulaOf).Ok? {
      BuildOk(mech, formulaOf);
    } else {
      BuildErr(mech, formulaOf);
    }
  }

  /** With one field per reaction, the fields are all given or all blank
      exactly when no reaction has a sensitivity while another lacks one. */
  lemma UniformIff(mech: seq<JsonRxn>, es: seq<Entry>)
    requires |es| == |mech| && forall i :: 0 <= i < |es| ==> es[i].sens == OrBlank(mech[i].sensitivity)
    ensures Uniform(es) <==>
      !((exists i :: 0 <= i < |mech| && mech[i].sensitivity.Some?) && (exists i :: 0 <= i < |mech| && mech[i].sensitivity.None?))
  {
    if !Uniform(es) {
      var i :| 0 <= i < |es| && !es[i].sens.Given?;
      var j :| 0 <= j < |es| && !es[j].sens.Blank?;
      assert mech[i].sensitivity.None? && mech[j].sensitivity.Some?;
    }
  }

  /** The `TypeError` of comparing `''` with a number happens exactly when
      the loop got through and some reactions have a sensitivity and others
      not. */
  lemma MechanismMixed(mech: seq<JsonRxn>, formulaOf: seq<string> -> string)
    ensures MechanismSpec(mech, formulaOf) == Err(MixedSensitivity) <==>
      && BuildSpec(mech, formulaOf).Ok?
      && (exists i :: 0 <= i < |mech| && mech[i].sensitivity.Some?)
      && (exists i :: 0 <= i < |mech| && mech[i].sensitivity.None?)
  {
    if BuildSpec(mech, formulaOf).Ok? {
      BuildSens(mech, formulaOf);
      UniformIff(mech, Zip(BuildSpec(mech, formulaOf).value));
      MixedCase(mech, formulaOf);
    } else {
      BuildErr(mech, formulaOf);
    }
  }

  /** The sensitivity of each entry read is the reaction's, or `''`. */
  lemma BuildSens(mech: seq<JsonRxn>, formulaOf: seq<string> -> string)
    requires BuildSpec(mech, formulaOf).Ok?
    ensures var es := Zip(BuildSpec(mech, formulaOf).value);
      |es| == |mech| && forall i :: 0 <= i < |es| ==> es[i].sens == OrBlank(mech[i].sensitivity)
  {
    BuildOk(mech, formulaOf);
  }

  lemma MixedCase(mech: seq<JsonRxn>, formulaOf: seq<string> -> string)
    requires BuildSpec(mech, formulaOf).Ok?
    ensures var es := Zip(BuildSpec(mech, formulaOf).value);
      MechanismSpec(mech, formulaOf) == Err(MixedSensitivity) <==> |es| > 0 && !Uniform(es)
  {
  }

  /** How the steps after the loop end, by the kinds of sensitivity in
      the entries. */
  lemma FinishOutcome(l: Lists)
    ensures var es := Zip(l);
      && (Finish(l) == Err(UnformattedSensitivity) <==> |es| > 0 && forall i :: 0 <= i < |es| ==> es[i].sens.Blank?)
      && (Finish(l).Ok? <==> |es| > 0 && forall i :: 0 <= i < |es| ==> es[i].sens.Given?)
  {
  }

  /** The entries' fields are all blank, or all given, exactly when the
      reactions' sensitivities are all missing, or all present. */
  lemma SensKinds(mech: seq<JsonRxn>, es: seq<Entry>)
    requires |es| == |mech| && forall i :: 0 <= i < |es| ==> es[i].sens == OrBlank(mech[i].sensitivity)
    ensures (forall i :: 0 <= i < |es| ==> es[i].sens.Blank?) <==> forall i :: 0 <= i < |mech| ==> mech[i].sensitivity.None?
    ensures (forall i :: 0 <= i < |es| ==> es[i].sens.Given?) <==> forall i :: 0 <= i < |mech| ==> mech[i].sensitivity.Some?
  {
  }

  /** The closing print's `ValueError` happens exactly when the loop got
      through a non-empty file in which no reaction has a sensitivity. */
  lemma MechanismUnformatted(mech: seq<JsonRxn>, formulaOf: seq<string> -> string)
    ensures MechanismSpec(mech, formulaOf) == Err(UnformattedSensitivity) <==>
      && BuildSpec(mech, formulaOf).Ok? && |mech| > 0
      && forall i :: 0 <= i < |mech| ==> mech[i].sensitivity.None?
  {
    if BuildSpec(mech, formulaOf).Ok? {
      var l := BuildSpec(mech, formulaOf).value;
      BuildSens(mech, formulaOf);
      FinishOutcome(l);
      SensKinds(mech, Zip(l));
    } else {
      BuildErr(mech, formulaOf);
    }
  }

  /** The branch gets to the end exactly when the file holds a reaction
      and every reaction has a name, a reactant and a sensitivity. */
  lemma MechanismOk(mech: seq<JsonRxn>, formulaOf: seq<string> -> string)
    ensures MechanismSpec(mech, formulaOf).Ok? <==>
      |mech| > 0 && forall i :: 0 <= i < |mech| ==> Readable(mech[i]) && mech[i].sensitivity.Some?
  {
    BuildOkIff(mech, formulaOf);
    if BuildSpec(mech, formulaOf).Ok? {
      var l := BuildSpec(mech, formulaOf).value;
      BuildSens(mech, formulaOf);
      FinishOutcome(l);
      SensKinds(mech, Zip(l));
    }
  }

  /** `(sens_dct[formula], sensitivity)` of `a` is at least that of `b`. */
  predicate RanksAtLeast(d: Dict<string, Field<real>>, a: Entry, b: Entry)
  {
    GroupRank(d, a.formula) > GroupRank(d, b.formula)
    || (GroupRank(d, a.formula) == GroupRank(d, b.formula) && Rank(a.sens) >= Rank(b.sens))
  }

  /** The final sort rearranges the entries and runs from the largest key
      to the smallest. */
  lemma FinalSortFacts(es: seq<Entry>)
    requires 0 < |es|
    ensures var fin := SortedBy(ByFormula(es), SensOrder(SensTable(es)));
      && |fin| == |es| && multiset(fin) == multiset(es)
      && forall i, j :: 0 <= i < j < |fin| ==> RanksAtLeast(SensTable(es), fin[i], fin[j])
  {
    var d := SensTable(es);
    var bf := ByFormula(es);
    ByFormulaFacts(es);
    SensOrderStrictWeak(d);
    SortRearranges(bf, SensOrder(d));
    SortOrders(bf, SensOrder(d));
    var r := Sort(Tag(bf), SensOrder(d));
    var fin := Untag(r);
    forall i, j | 0 <= i < j < |fin| ensures RanksAtLeast(d, fin[i], fin[j]) {
      assert !SensOrder(d)(r[j].1, r[i].1);
    }
  }

  /** On success the final lists are aligned, hold one element per
      reaction, rearrange the reactions read, and run from the largest
      `(sens_dct[formula], sensitivity)` to the smallest. */
  lemma MechanismOrder(mech: seq<JsonRxn>, formulaOf: seq<string> -> string)
    requires MechanismSpec(mech, formulaOf).Ok?
    ensures BuildSpec(mech, formulaOf).Ok? && |mech| > 0
    ensures forall i :: 0 <= i < |mech| ==> mech[i].sensitivity.Some?
    ensures var out := MechanismSpec(mech, formulaOf).value;
      var es := Zip(BuildSpec(mech, formulaOf).value);
      var fin := Zip(out);
      && Aligned(out) && |fin| == |mech|
      && multiset(fin) == multiset(es)
      && forall i, j :: 0 <= i < j < |fin| ==> RanksAtLeast(SensTable(es), fin[i], fin[j])
  {
    BuildOk(mech, formulaOf);
    MechanismOk(mech, formulaOf);
    var es := Zip(BuildSpec(mech, formulaOf).value);
    FinalSortFacts(es);
    var sorted := SortedBy(ByFormula(es), SensOrder(SensTable(es)));
    ZipUnzip(sorted);
    assert MechanismSpec(mech, formulaOf).value == Unzip(sorted);
  }

  // ---------------------------------------------------------------------
  // The CHEMKIN reaction name

  lemma {:induction false} NotInJoin(parts: seq<string>, sep: string, c: char)
    requires c !in sep && forall i :: 0 <= i < |parts| ==> c !in parts[i]
    ensures c !in Join(parts, sep)
  {
    if |parts| > 1 {
      NotInJoin(parts[1..], sep, c);
    }
  }

  /** The name splits back at `=` into the two sides and each side at `+`
      into its species, when there is a species on each side and no name
      holds `+` or `=`. */
  lemma RxnNameSplits(rcts: seq<string>, prds: seq<string>)
    requires |rcts| >= 1 && |prds| >= 1
    requires forall i :: 0 <= i < |rcts| ==> '+' !in rcts[i] && '=' !in rcts[i]
    requires forall i :: 0 <= i < |prds| ==> '+' !in prds[i] && '=' !in prds[i]
    ensures Split(RxnName(rcts, prds), '=') == [Join(rcts, "+"), Join(prds, "+")]
    ensures Split(Split(RxnName(rcts, prds), '=')[0], '+') == rcts
    ensures Split(Split(RxnName(rcts, prds), '=')[1], '+') == prds
  {
    NotInJoin(rcts, "+", '=');
    NotInJoin(prds, "+", '=');
    var sides := [Join(rcts, "+"), Join(prds, "+")];
    SplitJoin(sides, '=');
    SplitJoin(rcts, '+');
    SplitJoin(prds, '+');
  }
}
