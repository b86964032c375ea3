/** The reaction list of scripts/estoktpb.py when the mechanism is a JSON
    file: the per-reaction parallel lists, the sort by reactant formula, the
    largest sensitivity of each formula group, and the final ordering by
    (group sensitivity, own sensitivity), largest first. Also the name a
    CHEMKIN reaction gets.

    The formula string of a reaction (`automol.inchi.formula`, joined and
    sorted) is an oracle on the InChIs of its reactants. */
module Mechanism {
  import opened Wrappers
  import opened Text
  import opened Dict
  import opened StableSort

  /** One entry of a reaction's `Reactants` or `Products`. */
  datatype Species = Species(inchi: string, mult: int, name: string)

  /** One reaction of the JSON file; `None` is a missing key. */
  datatype JsonRxn = JsonRxn(
    name: Option<string>, reactants: Option<seq<Species>>, products: Option<seq<Species>>,
    sensitivity: Option<real>, uncertainty: Option<real>, value: Option<real>, family: Option<string>)

  /** A field that holds the value read or Python's `''` default. */
  datatype Field<T> = Blank | Given(value: T)

  function OrBlank<T>(v: Option<T>): (r: Field<T>)
    ensures r.Given? <==> v.Some?
    ensures r.Given? ==> r.value == v.value
  {
    if v.Some? then Given(v.value) else Blank
  }

  /** The twelve parallel lists. */
  datatype Lists = Lists(
    formulas: seq<string>, rctNames: seq<seq<string>>, prdNames: seq<seq<string>>, names: seq<string>,
    sens: seq<Field<real>>, unc: seq<Field<real>>, val: seq<Field<real>>, fam: seq<Field<string>>,
    rctIchs: seq<seq<string>>, rctMuls: seq<seq<int>>, prdIchs: seq<seq<string>>, prdMuls: seq<seq<int>>)

  /** One element of `RXN_INFO_LST`: the twelve fields of one reaction. */
  datatype Entry = Entry(
    formula: string, rctNames: seq<string>, prdNames: seq<string>, name: string,
    sens: Field<real>, unc: Field<real>, val: Field<real>, fam: Field<string>,
    rctIchs: seq<string>, rctMuls: seq<int>, prdIchs: seq<string>, prdMuls: seq<int>)

  /** Why the script stops, among the failures modelled (a species entry
      is taken to have all three of its keys): a `KeyError` on
      `reaction['name']`; an
      `AttributeError` on `''.items()` when a reaction has no reactant, so
      that its formula is never built; an `IndexError` on `RXN_INFO_LST[0]`;
      a `TypeError` comparing `''` with a number, raised by `max` inside a
      formula group or by the final sort; a `ValueError` from
      `"{:.2f}".format('')` when the closing loop (line 497) prints a
      reaction without a sensitivity. */
  datatype MechError =
    | MissingName(index: nat) | NoReactantFormula(index: nat) | EmptyMechanism | MixedSensitivity
    | UnformattedSensitivity

  const NoLists := Lists([], [], [], [], [], [], [], [], [], [], [], [])

  function Names(sp: seq<Species>): (r: seq<string>)
    ensures |r| == |sp| && forall i :: 0 <= i < |sp| ==> r[i] == sp[i].name
  {
    if |sp| == 0 then [] else Names(sp[..|sp| - 1]) + [sp[|sp| - 1].name]
  }

  function Inchis(sp: seq<Species>): (r: seq<string>)
    ensures |r| == |sp| && forall i :: 0 <= i < |sp| ==> r[i] == sp[i].inchi
  {
    if |sp| == 0 then [] else Inchis(sp[..|sp| - 1]) + [sp[|sp| - 1].inchi]
  }

  function Mults(sp: seq<Species>): (r: seq<int>)
    ensures |r| == |sp| && forall i :: 0 <= i < |sp| ==> r[i] == sp[i].mult
  {
    if |sp| == 0 then [] else Mults(sp[..|sp| - 1]) + [sp[|sp| - 1].mult]
  }

  function OrEmpty(sp: Option<seq<Species>>): seq<Species>
  {
    if sp.Some? then sp.value else []
  }

  /** A reaction the loop gets through. */
  predicate Readable(r: JsonRxn)
  {
    r.name.Some? && |OrEmpty(r.reactants)| > 0
  }

  /** The fields one readable reaction contributes; a missing `Products`
      gives empty product fields. */
  function EntryOf(r: JsonRxn, formulaOf: seq<string> -> string): (e: Entry)
    requires Readable(r)
    ensures e.name == r.name.value
    ensures e.sens == OrBlank(r.sensitivity) && e.unc == OrBlank(r.uncertainty)
    ensures e.val == OrBlank(r.value) && e.fam == OrBlank(r.family)
    ensures e.formula == formulaOf(Inchis(OrEmpty(r.reactants)))
    ensures e.rctNames == Names(OrEmpty(r.reactants)) && e.prdNames == Names(OrEmpty(r.products))
  {
    var rcts := OrEmpty(r.reactants);
    var prds := OrEmpty(r.products);
    Entry(formulaOf(Inchis(rcts)), Names(rcts), Names(prds), r.name.value, OrBlank(r.sensitivity),
          OrBlank(r.uncertainty), OrBlank(r.value), OrBlank(r.family), Inchis(rcts), Mults(rcts),
          Inchis(prds), Mults(prds))
  }

  /** Every list appended with its field of `e`. */
  function Append(l: Lists, e: Entry): Lists
  {
    Lists(l.formulas + [e.formula], l.rctNames + [e.rctNames], l.prdNames + [e.prdNames], l.names + [e.name],
          l.sens + [e.sens], l.unc + [e.unc], l.val + [e.val], l.fam + [e.fam],
          l.rctIchs + [e.rctIchs], l.rctMuls + [e.rctMuls], l.prdIchs + [e.prdIchs], l.prdMuls + [e.prdMuls])
  }

  /** One pass of the loop over `mech_data`, for reaction `k`, with every
      list appended to: the corrected pass, in which a reaction without
      `Products` appends empty product fields and keeps the lists
      aligned. */
  function AddRxn(l: Lists, r: JsonRxn, k: nat, formulaOf: seq<string> -> string): Result<Lists, MechError>
  {
    if r.name.None? then Err(MissingName(k))
    else if |OrEmpty(r.reactants)| == 0 then Err(NoReactantFormula(k))
    else Ok(Append(l, EntryOf(r, formulaOf)))
  }

  /** The pass as written: a reaction without `Products` appends nothing to
      the three product lists. */
  function AddRxnAsWritten(l: Lists, r: JsonRxn, k: nat, formulaOf: seq<string> -> string): Result<Lists, MechError>
  {
    match AddRxn(l, r, k, formulaOf)
    case Err(e) => Err(e)
    case Ok(l') =>
      if r.products.Some? then Ok(l')
      else Ok(l'.(prdNames := l.prdNames, prdIchs := l.prdIchs, prdMuls := l.prdMuls))
  }

  function BuildSpec(mech: seq<JsonRxn>, formulaOf: seq<string> -> string): Result<Lists, MechError>
  {
    if |mech| == 0 then Ok(NoLists)
    else
      match BuildSpec(mech[..|mech| - 1], formulaOf)
      case Err(e) => Err(e)
      case Ok(l) => AddRxn(l, mech[|mech| - 1], |mech| - 1, formulaOf)
  }

  function BuildAsWritten(mech: seq<JsonRxn>, formulaOf: seq<string> -> string): Result<Lists, MechError>
  {
    if |mech| == 0 then Ok(NoLists)
    else
      match BuildAsWritten(mech[..|mech| - 1], formulaOf)
      case Err(e) => Err(e)
      case Ok(l) => AddRxnAsWritten(l, mech[|mech| - 1], |mech| - 1, formulaOf)
  }

  function Min(a: nat, b: nat): nat { if a <= b then a else b }

  /** The length `zip` stops at: the shortest list. */
  function ZipLength(l: Lists): (n: nat)
    ensures n <= |l.formulas| && n <= |l.rctNames| && n <= |l.prdNames| && n <= |l.names|
    ensures n <= |l.sens| && n <= |l.unc| && n <= |l.val| && n <= |l.fam|
    ensures n <= |l.rctIchs| && n <= |l.rctMuls| && n <= |l.prdIchs| && n <= |l.prdMuls|
    ensures n == |l.formulas| || n == |l.rctNames| || n == |l.prdNames| || n == |l.names|
         || n == |l.sens| || n == |l.unc| || n == |l.val| || n == |l.fam|
         || n == |l.rctIchs| || n == |l.rctMuls| || n == |l.prdIchs| || n == |l.prdMuls|
  {
    Min(Min(Min(Min(|l.formulas|, |l.rctNames|), Min(|l.prdNames|, |l.names|)),
            Min(Min(|l.sens|, |l.unc|), Min(|l.val|, |l.fam|))),
        Min(Min(|l.rctIchs|, |l.rctMuls|), Min(|l.prdIchs|, |l.prdMuls|)))
  }

  /** `list(zip(...))` of the twelve lists. */
  function Zip(l: Lists): seq<Entry>
  {
    seq(ZipLength(l), i requires 0 <= i < ZipLength(l) =>
      Entry(l.formulas[i], l.rctNames[i], l.prdNames[i], l.names[i], l.sens[i], l.unc[i], l.val[i], l.fam[i],
            l.rctIchs[i], l.rctMuls[i], l.prdIchs[i], l.prdMuls[i]))
  }

  /** `zip(*RXN_INFO_LST)`, back into twelve lists. */
  function Unzip(es: seq<Entry>): Lists
  {
    Lists(
      seq(|es|, i requires 0 <= i < |es| => es[i].formula), seq(|es|, i requires 0 <= i < |es| => es[i].rctNames),
      seq(|es|, i requires 0 <= i < |es| => es[i].prdNames), seq(|es|, i requires 0 <= i < |es| => es[i].name),
      seq(|es|, i requires 0 <= i < |es| => es[i].sens), seq(|es|, i requires 0 <= i < |es| => es[i].unc),
      seq(|es|, i requires 0 <= i < |es| => es[i].val), seq(|es|, i requires 0 <= i < |es| => es[i].fam),
      seq(|es|, i requires 0 <= i < |es| => es[i].rctIchs), seq(|es|, i requires 0 <= i < |es| => es[i].rctMuls),
      seq(|es|, i requires 0 <= i < |es| => es[i].prdIchs), seq(|es|, i requires 0 <= i < |es| => es[i].prdMuls))
  }

  /** All twelve lists have the same length. */
  predicate Aligned(l: Lists)
  {
    var n := |l.formulas|;
    && |l.rctNames| == n && |l.prdNames| == n && |l.names| == n && |l.sens| == n && |l.unc| == n
    && |l.val| == n && |l.fam| == n && |l.rctIchs| == n && |l.rctMuls| == n && |l.prdIchs| == n
    && |l.prdMuls| == n
  }

  // ---------------------------------------------------------------------
  // Sorting and grouping

  /** The first sort's key: the formula string. */
  function FormulaOrder(): (Entry, Entry) -> bool
  {
    (a: Entry, b: Entry) => LexLess(a.formula, b.formula)
  }

  /** Comparison of two fields; `''` is never compared with a number (the
      script stops first, see `MixedSensitivity`). */
  predicate FieldGt(a: Field<real>, b: Field<real>)
  {
    a.Given? && b.Given? && a.value > b.value
  }

  /** Python's `max(a, b)`: `a` unless `b > a`. */
  function FieldMax(a: Field<real>, b: Field<real>): Field<real>
  {
    if FieldGt(b, a) then b else a
  }

  /** The state of the loop at lines 471-479. */
  datatype Scan = Scan(oldFormula: string, sens: Field<real>, formulas: seq<string>, maxima: seq<Field<real>>)

  function ScanStep(st: Scan, e: Entry): Scan
  {
    if e.formula == st.oldFormula then st.(sens := FieldMax(st.sens, e.sens))
    else Scan(e.formula, e.sens, st.formulas + [st.oldFormula], st.maxima + [st.sens])
  }

  function ScanSpec(es: seq<Entry>, k: nat): (st: Scan)
    requires 0 < |es| && k <= |es|
    ensures |st.formulas| == |st.maxima|
  {
    if k == 0 then Scan(es[0].formula, es[0].sens, [], [])
    else ScanStep(ScanSpec(es, k - 1), es[k - 1])
  }

  /** `ordered_formula` and `ordered_sens` after the loop and the two
      appends that close the last group. */
  function Groups(es: seq<Entry>): (g: (seq<string>, seq<Field<real>>))
    requires 0 < |es|
    ensures |g.0| == |g.1| > 0
  {
    var st := ScanSpec(es, |es|);
    (st.formulas + [st.oldFormula], st.maxima + [st.sens])
  }

  /** `sens_dct`, filled from the two lists. */
  function SensDct(fs: seq<string>, ms: seq<Field<real>>): Dict<string, Field<real>>
    requires |fs| == |ms|
  {
    if |fs| == 0 then []
    else Put(SensDct(fs[..|fs| - 1], ms[..|ms| - 1]), fs[|fs| - 1], ms[|ms| - 1])
  }

  /** The order of reals for a field; a formula missing from the table
      ranks as `''`. All fields compared are of one kind, so this agrees
      with Python's comparisons. */
  function Rank(f: Field<real>): real
  {
    if f.Given? then f.value else 0.0
  }

  function GroupRank(d: Dict<string, Field<real>>, formula: string): real
  {
    if Has(d, formula) then Rank(Get(d, formula)) else 0.0
  }

  /** The final sort with `reverse=True`: `a` goes first when its key
      `(sens_dct[formula], sensitivity)` is larger. */
  function SensOrder(d: Dict<string, Field<real>>): (Entry, Entry) -> bool
  {
    (a: Entry, b: Entry) =>
      GroupRank(d, a.formula) > GroupRank(d, b.formula)
      || (GroupRank(d, a.formula) == GroupRank(d, b.formula) && Rank(a.sens) > Rank(b.sens))
  }

  /** Every sensitivity is given, or every one is missing. */
  predicate Uniform(es: seq<Entry>)
  {
    (forall i :: 0 <= i < |es| ==> es[i].sens.Given?) || (forall i :: 0 <= i < |es| ==> es[i].sens.Blank?)
  }

  /** The formula-sorted list and its `sens_dct`. */
  function ByFormula(es: seq<Entry>): seq<Entry>
  {
    SortedBy(es, FormulaOrder())
  }

  /** `sens_dct` for a list of entries: built from the groups of the list
      sorted by formula. */
  function SensTable(es: seq<Entry>): Dict<string, Field<real>>
    requires 0 < |es|
  {
    var (fs, ms) := Groups(ByFormula(es));
    SensDct(fs, ms)
  }

  /** Lines 456-497 on the lists the loop built: the zip, the two sorts,
      the unzip and the closing print, which formats every sensitivity. */
  function Finish(l: Lists): Result<Lists, MechError>
  {
    var es := Zip(l);
    if |es| == 0 then Err(EmptyMechanism)
    else if !Uniform(es) then Err(MixedSensitivity)
    else if es[0].sens.Blank? then Err(UnformattedSensitivity)
    else
      Ok(Unzip(SortedBy(ByFormula(es), SensOrder(SensTable(es)))))
  }

  /** The json branch from `mech_data` to the final lists, with the
      corrected loop (see `AddRxn`). */
  function MechanismSpec(mech: seq<JsonRxn>, formulaOf: seq<string> -> string): Result<Lists, MechError>
  {
    match BuildSpec(mech, formulaOf)
    case Err(e) => Err(e)
    case Ok(l) => Finish(l)
  }

  /** The json branch as written: the loop of `AddRxnAsWritten`. */
  function MechanismAsWritten(mech: seq<JsonRxn>, formulaOf: seq<string> -> string): Result<Lists, MechError>
  {
    match BuildAsWritten(mech, formulaOf)
    case Err(e) => Err(e)
    case Ok(l) => Finish(l)
  }

  /** The CHEMKIN reaction name of line 348. */
  function RxnName(rcts: seq<string>, prds: seq<string>): string
  {
    Join([Join(rcts, "+"), Join(prds, "+")], "=")
  }

  // ---------------------------------------------------------------------
  // The loops as written

  /** The inner loop over `Reactants` (or `Products`). */
  method SpeciesFields(sp: seq<Species>) returns (ichs: seq<string>, muls: seq<int>, names: seq<string>)
    ensures ichs == Inchis(sp) && muls == Mults(sp) && names == Names(sp)
  {
    ichs, muls, names := [], [], [];
    for i := 0 to |sp|
      invariant ichs == Inchis(sp[..i]) && muls == Mults(sp[..i]) && names == Names(sp[..i])
    {
      assert sp[..i + 1][..i] == sp[..i];
      ichs := ichs + [sp[i].inchi];
      muls := muls + [sp[i].mult];
      names := names + [sp[i].name];
    }
    assert sp[..|sp|] == sp;
  }

  /** An error stops the loop: it is the result for every longer prefix. */
  lemma {:induction false} BuildErrSticks(mech: seq<JsonRxn>, k: nat, formulaOf: seq<string> -> string)
    requires k <= |mech| && BuildSpec(mech[..k], formulaOf).Err?
    ensures BuildSpec(mech, formulaOf) == BuildSpec(mech[..k], formulaOf)
    decreases |mech| - k
  {
    if k < |mech| {
      assert mech[..k + 1][..k] == mech[..k];
      BuildErrSticks(mech, k + 1, formulaOf);
    } else {
      assert mech[..k] == mech;
    }
  }

  /** The loop at lines 399-454, corrected so that a reaction without
      `Products` appends empty product fields (see `AddRxn`). */
  method BuildLists(mech: seq<JsonRxn>, formulaOf: seq<string> -> string) returns (r: Result<Lists, MechError>)
    ensures r == BuildSpec(mech, formulaOf)
  {
    var l := NoLists;
    for k := 0 to |mech|
      invariant BuildSpec(mech[..k], formulaOf) == Ok(l)
    {
      assert mech[..k + 1][..k] == mech[..k];
      var reaction := mech[k];
      if reaction.name.None? {
        BuildErrSticks(mech, k + 1, formulaOf);
        return Err(MissingName(k));
      }
      var rctIchs, rctMuls, rctNames := [], [], [];
      if reaction.reactants.Some? {
        rctIchs, rctMuls, rctNames := SpeciesFields(reaction.reactants.value);
      }
      var prdIchs, prdMuls, prdNames := [], [], [];
      if reaction.products.Some? {
        prdIchs, prdMuls, prdNames := SpeciesFields(reaction.products.value);
      }
      if |rctIchs| == 0 {
        BuildErrSticks(mech, k + 1, formulaOf);
        return Err(NoReactantFormula(k));
      }
      var entry := Entry(formulaOf(rctIchs), rctNames, prdNames, reaction.name.value,
        OrBlank(reaction.sensitivity), OrBlank(reaction.uncertainty), OrBlank(reaction.value),
        OrBlank(reaction.family), rctIchs, rctMuls, prdIchs, prdMuls);
      l := Append(l, entry);
    }
    assert mech[..|mech|] == mech;
    r := Ok(l);
  }

  /** The loop at lines 471-481. */
  method GroupMaxima(es: seq<Entry>) returns (orderedFormula: seq<string>, orderedSens: seq<Field<real>>)
    requires 0 < |es|
    ensures (orderedFormula, orderedSens) == Groups(es)
  {
    var oldFormula := es[0].formula;
    var sens := es[0].sens;
    orderedFormula, orderedSens := [], [];
    for i := 0 to |es|
      invariant ScanSpec(es, i) == Scan(oldFormula, sens, orderedFormula, orderedSens)
    {
      var entry := es[i];
      if entry.formula == oldFormula {
        sens := FieldMax(sens, entry.sens);
      } else {
        orderedSens := orderedSens + [sens];
        orderedFormula := orderedFormula + [oldFormula];
        sens := entry.sens;
        oldFormula := entry.formula;
      }
    }
    orderedSens := orderedSens + [sens];
    orderedFormula := orderedFormula + [oldFormula];
  }

  /** The loop at lines 483-484. */
  method BuildSensDct(fs: seq<string>, ms: seq<Field<real>>) returns (d: Dict<string, Field<real>>)
    requires |fs| == |ms|
    ensures d == SensDct(fs, ms)
  {
    d := [];
    for i := 0 to |ms|
      invariant d == SensDct(fs[..i], ms[..i])
    {
      assert fs[..i + 1][..i] == fs[..i] && ms[..i + 1][..i] == ms[..i];
      d := Put(d, fs[i], ms[i]);
    }
    assert fs[..|fs|] == fs && ms[..|ms|] == ms;
  }

  /** The json branch, lines 399-497, over the corrected loop. */
  method JsonMechanism(mech: seq<JsonRxn>, formulaOf: seq<string> -> string) returns (r: Result<Lists, MechError>)
    ensures r == MechanismSpec(mech, formulaOf)
  {
    var built := BuildLists(mech, formulaOf);
    if built.Err? {
      return Err(built.error);
    }
    var rxnInfo := Zip(built.value);
    if |rxnInfo| == 0 {
      return Err(EmptyMechanism);
    }
    if !Uniform(rxnInfo) {
      return Err(MixedSensitivity);
    }
    if rxnInfo[0].sens.Blank? {
      return Err(UnformattedSensitivity);
    }
    rxnInfo := ByFormula(rxnInfo);
    var orderedFormula, orderedSens := GroupMaxima(rxnInfo);
    var sensDct := BuildSensDct(orderedFormula, orderedSens);
    rxnInfo := SortedBy(rxnInfo, SensOrder(sensDct));
    r := Ok(Unzip(rxnInfo));
  }
}
