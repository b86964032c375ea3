/** The species-block memoisation of scripts/ktp.py (`make_all_species_data`):
    for every reaction whose transition state was found, the blocks of its
    reactants and products are built once each, and the transition state's
    own block is built unless its class is a radical-radical addition.

    The block builder (`make_species_data`, which calls `moldr.pf.species_block`
    and the file system) is an oracle; a block is its opaque text. */
module SpeciesData {
  import opened Dict
  import opened Text
  import Network

  datatype Rxn = Rxn(reacs: seq<string>, prods: seq<string>)

  /** One call of `make_species_data`: for a reaction species, or for a
      transition state (whose imaginary frequency is written back into
      `spc_dct[tsname]['imag_freq']`). */
  datatype Build = SpeciesBuilt(name: string) | TsBuilt(name: string)

  /** The oracles: the block of a species, the block and imaginary frequency
      of a transition state, and `spc_dct[tsname]['class']`. */
  datatype Oracles = Oracles(
    speciesBlock: string -> string, tsBlock: string -> (string, real), tsClass: string -> string)

  /** `species`, the builder calls so far, and the `imag_freq` values written. */
  datatype Built = Built(species: Dict<string, string>, log: seq<Build>, imag: Dict<string, real>)

  const RadicalAddition := "radical radical addition"

  const Empty := Built([], [], [])

  /** The inner loop over `reacs + prods`: build the names not yet present. */
  function AddNames(st: Built, names: seq<string>, o: Oracles): Built
  {
    if |names| == 0 then st
    else
      var st' := AddNames(st, names[..|names| - 1], o);
      var name := names[|names| - 1];
      if Has(st'.species, name) then st'
      else st'.(species := Put(st'.species, name, o.speciesBlock(name)), log := st'.log + [SpeciesBuilt(name)])
  }

  /** Whether the transition state of reaction `k` gets a block. */
  predicate BuildsTs(k: nat, o: Oracles)
  {
    !Contains(o.tsClass(Network.TsName(k)), RadicalAddition)
  }

  /** One pass of the outer loop, for reaction `k`. */
  function AddReaction(st: Built, k: nat, rxn: Rxn, tsFound: seq<string>, o: Oracles): Built
  {
    var ts := Network.TsName(k);
    if ts !in tsFound then st
    else
      var st1 := AddNames(st, rxn.reacs + rxn.prods, o);
      if !BuildsTs(k, o) then st1
      else
        var (block, imagFreq) := o.tsBlock(ts);
        st1.(species := Put(st1.species, ts, block), log := st1.log + [TsBuilt(ts)],
             imag := Put(st1.imag, ts, imagFreq))
  }

  /** The whole function, reaction by reaction. */
  function AllSpecies(rxns: seq<Rxn>, tsFound: seq<string>, o: Oracles): Built
  {
    if |rxns| == 0 then Empty
    else AddReaction(AllSpecies(rxns[..|rxns| - 1], tsFound, o), |rxns| - 1, rxns[|rxns| - 1], tsFound, o)
  }

  /** The inner loop of `make_all_species_data`, as written. */
  method BuildNames(species0: Dict<string, string>, log0: seq<Build>, imag: Dict<string, real>,
                    names: seq<string>, o: Oracles)
    returns (species: Dict<string, string>, log: seq<Build>)
    ensures Built(species, log, imag) == AddNames(Built(species0, log0, imag), names, o)
  {
    species, log := species0, log0;
    for j := 0 to |names|
      invariant Built(species, log, imag) == AddNames(Built(species0, log0, imag), names[..j], o)
    {
      assert names[..j + 1][..j] == names[..j];
      var name := names[j];
      if !Has(species, name) {
        species := Put(species, name, o.speciesBlock(name));
        log := log + [SpeciesBuilt(name)];
      }
    }
    assert names[..|names|] == names;
  }

  /** `make_all_species_data`: the loops as written. */
  method MakeAllSpeciesData(rxns: seq<Rxn>, tsFound: seq<string>, o: Oracles)
    returns (species: Dict<string, string>, log: seq<Build>, imag: Dict<string, real>)
    ensures Built(species, log, imag) == AllSpecies(rxns, tsFound, o)
  {
    species, log, imag := [], [], [];
    for idx := 0 to |rxns|
      invariant Built(species, log, imag) == AllSpecies(rxns[..idx], tsFound, o)
    {
      assert rxns[..idx + 1][..idx] == rxns[..idx];
      var tsname := Network.TsName(idx);
      if tsname in tsFound {
        species, log := BuildNames(species, log, imag, rxns[idx].reacs + rxns[idx].prods, o);
        if !Contains(o.tsClass(tsname), RadicalAddition) {
          var (block, imagFreq) := o.tsBlock(tsname);
          species := Put(species, tsname, block);
          log := log + [TsBuilt(tsname)];
          imag := Put(imag, tsname, imagFreq);
        }
      }
    }
    assert rxns[..|rxns|] == rxns;
  }

  // ---------------------------------------------------------------------
  // Properties

  /** Every species build is of a name then present, and no name is built
      twice as a species. */
  ghost predicate Memoised(st: Built)
  {
    && (forall i :: 0 <= i < |st.log| && st.log[i].SpeciesBuilt? ==> Has(st.species, st.log[i].name))
    && (forall i, j :: 0 <= i < j < |st.log| && st.log[i].SpeciesBuilt? && st.log[j].SpeciesBuilt?
          ==> st.log[i].name != st.log[j].name)
  }

  lemma {:induction false} AddNamesMemoised(st: Built, names: seq<string>, o: Oracles)
    requires Memoised(st)
    ensures Memoised(AddNames(st, names, o))
    ensures |AddNames(st, names, o).log| >= |st.log|
    ensures AddNames(st, names, o).log[..|st.log|] == st.log
    ensures AddNames(st, names, o).imag == st.imag
    ensures forall i :: |st.log| <= i < |AddNames(st, names, o).log| ==> AddNames(st, names, o).log[i].SpeciesBuilt?
    ensures forall n :: Has(AddNames(st, names, o).species, n) <==> Has(st.species, n) || n in names
  {
    if |names| > 0 {
      var init := names[..|names| - 1];
      AddNamesMemoised(st, init, o);
      var st' := AddNames(st, init, o);
      var name := names[|names| - 1];
      assert names == init + [name];
      if !Has(st'.species, name) {
        var st2 := AddNames(st, names, o);
        assert st2.log == st'.log + [SpeciesBuilt(name)];
        assert st2.log[..|st'.log|] == st'.log;
        assert st'.log[..|st.log|] == st.log;
      }
    }
  }

  /** What reaction `k` contributes to the keys of `species`. */
  predicate Contributes(rxn: Rxn, k: nat, tsFound: seq<string>, o: Oracles, name: string)
  {
    Network.TsName(k) in tsFound
      && (name in rxn.reacs + rxn.prods || (name == Network.TsName(k) && BuildsTs(k, o)))
  }

  lemma AddReactionFacts(st: Built, k: nat, rxn: Rxn, tsFound: seq<string>, o: Oracles)
    requires Memoised(st)
    ensures Memoised(AddReaction(st, k, rxn, tsFound, o))
    ensures |AddReaction(st, k, rxn, tsFound, o).log| >= |st.log|
    ensures AddReaction(st, k, rxn, tsFound, o).log[..|st.log|] == st.log
    ensures forall n :: Has(AddReaction(st, k, rxn, tsFound, o).species, n)
                    <==> Has(st.species, n) || Contributes(rxn, k, tsFound, o, n)
  {
    var ts := Network.TsName(k);
    if ts in tsFound {
      AddNamesMemoised(st, rxn.reacs + rxn.prods, o);
      var st1 := AddNames(st, rxn.reacs + rxn.prods, o);
      if BuildsTs(k, o) {
        var st2 := AddReaction(st, k, rxn, tsFound, o);
        assert st2.log == st1.log + [TsBuilt(ts)];
        assert st2.log[..|st1.log|] == st1.log;
        assert st1.log[..|st.log|] == st.log;
      }
    }
  }

  /** The invariant holds of the whole run, and the keys of `species` are
      exactly the reactants and products of the reactions whose
      transition state was found, and those transition states whose class
      is not a radical-radical addition. */
  lemma {:induction false} AllSpeciesFacts(rxns: seq<Rxn>, tsFound: seq<string>, o: Oracles)
    ensures Memoised(AllSpecies(rxns, tsFound, o))
    ensures forall n :: Has(AllSpecies(rxns, tsFound, o).species, n)
                    <==> exists k :: 0 <= k < |rxns| && Contributes(rxns[k], k, tsFound, o, n)
  {
    if |rxns| > 0 {
      var init := rxns[..|rxns| - 1];
      AllSpeciesFacts(init, tsFound, o);
      AddReactionFacts(AllSpecies(init, tsFound, o), |rxns| - 1, rxns[|rxns| - 1], tsFound, o);
      forall n
        ensures Has(AllSpecies(rxns, tsFound, o).species, n)
            <==> exists k :: 0 <= k < |rxns| && Contributes(rxns[k], k, tsFound, o, n)
      {
        if exists k :: 0 <= k < |rxns| && Contributes(rxns[k], k, tsFound, o, n) {
          var k :| 0 <= k < |rxns| && Contributes(rxns[k], k, tsFound, o, n);
          if k < |rxns| - 1 {
            assert init[k] == rxns[k];
          }
        }
        if exists k :: 0 <= k < |init| && Contributes(init[k], k, tsFound, o, n) {
          var k :| 0 <= k < |init| && Contributes(init[k], k, tsFound, o, n);
          assert rxns[k] == init[k];
        }
      }
    }
  }

  /** No species name is built twice. */
  lemma SpeciesBuiltOnce(rxns: seq<Rxn>, tsFound: seq<string>, o: Oracles)
    ensures var log := AllSpecies(rxns, tsFound, o).log;
      forall i, j :: 0 <= i < j < |log| && log[i].SpeciesBuilt? && log[j].SpeciesBuilt?
        ==> log[i].name != log[j].name
  {
    AllSpeciesFacts(rxns, tsFound, o);
  }

  /** Every transition-state build is of a found transition state whose
      class is not a radical-radical addition, and each such build writes
      its imaginary frequency back. */
  ghost predicate TsBuildsAllowed(st: Built, tsFound: seq<string>, o: Oracles)
  {
    forall i :: 0 <= i < |st.log| && st.log[i].TsBuilt? ==>
      && st.log[i].name in tsFound
      && !Contains(o.tsClass(st.log[i].name), RadicalAddition)
      && Has(st.imag, st.log[i].name)
  }

  lemma {:induction false} AllSpeciesTsBuilds(rxns: seq<Rxn>, tsFound: seq<string>, o: Oracles)
    ensures TsBuildsAllowed(AllSpecies(rxns, tsFound, o), tsFound, o)
  {
    if |rxns| > 0 {
      var init := rxns[..|rxns| - 1];
      var k := |rxns| - 1;
      AllSpeciesTsBuilds(init, tsFound, o);
      AllSpeciesFacts(init, tsFound, o);
      var st := AllSpecies(init, tsFound, o);
      var ts := Network.TsName(k);
      if ts in tsFound {
        AddNamesMemoised(st, rxns[k].reacs + rxns[k].prods, o);
        var st1 := AddNames(st, rxns[k].reacs + rxns[k].prods, o);
        assert TsBuildsAllowed(st1, tsFound, o) by {
          forall i | 0 <= i < |st1.log| && st1.log[i].TsBuilt?
            ensures st1.log[i].name in tsFound && !Contains(o.tsClass(st1.log[i].name), RadicalAddition)
                    && Has(st1.imag, st1.log[i].name)
          {
            assert i < |st.log|;
            assert st1.log[i] == st1.log[..|st.log|][i] == st.log[i];
          }
        }
      }
    }
  }
}
