# Rate-network bookkeeping of a k(T,P) driver, modelled in Dafny

The system drives external electronic-structure and master-equation programs
to compute pressure-dependent rate constants. The heavy steps are foreign
calls. Around them sit small, sequential bookkeeping routines, and those are
what this project models and proves properties of:

- **Channel assembly** (`make_channel_pfs`, module `Network`). One reaction
  channel is folded into the label table `idx_dct`, which maps a species
  combination such as `A+B` to a label such as `P3`, `W2`, `F1`, `FRB5` or
  `FPB5`. The well, bimolecular and transition-state blocks of the
  master-equation input grow as it goes. The table is a class whose
  `entries` the methods update in place. Each block is a record naming the
  label, the species and the energy handed to the writer. Properties across
  whole calls are in `NetworkProps`.
- **Species-block memoisation** (`make_all_species_data`, module
  `SpeciesData`). Every species block is built at most once over all
  reactions whose transition state was found. Transition-state blocks are
  skipped for radical-radical additions.
- **Rate tables** (`read_rates`, `mod_arr_fit` and the input join of
  `run_rates`, module `Rates`). These are dictionaries keyed by pressure:
  - empty curves are filtered out;
  - a reaction that is not pressure-dependent collapses to one `'high'`
    entry;
  - the fit dictionaries get their key sets, including the default `'high'`
    parameters.
- **Reference geometry** (`reference_geometry`, module `RefGeom`). The
  run-status marker acts as a lease. A fixed priority picks the starting
  geometry. After optimisation come the imaginary-mode check, the conformer
  bookkeeping and the final SUCCESS/FAILURE marker, and an exception in the
  body counts as FAILURE. The file systems are a `RunStore` class holding the
  status and an ordered log of everything written or started.
- **Imaginary-mode removal** (`run_initial_geometry_opt`,
  `run_check_imaginary`, `run_kickoff_saddle` and the bounded loop
  `remove_imag`, module `ImagModes`).
- **Mechanism ordering** (the json branch of scripts/estoktpb.py, module
  `Mechanism`, with proofs in `MechanismProps`). It covers:
  - the parallel per-reaction lists with `''` defaults;
  - the stable sort by formula;
  - the running maximum of the sensitivity over each formula group;
  - `sens_dct`;
  - the final stable sort by (group maximum, own sensitivity), largest first;
  - the CHEMKIN reaction name.

Supporting modules:
- `Wrappers` provides `Option` and `Result`.
- `Text` provides join, split, `in`, `replace`, decimal digits and
  lexicographic order.
- `Dict` is an insertion-ordered dictionary. It is a sequence of pairs, and
  assigning to an existing key overwrites that key in place, as Python's
  dict does.
- `StableSort` is Python's `sorted` with a key. It is proved to be a
  rearrangement of its input that is ordered by the key and keeps ties in
  input order.

The foreign calls become function-typed parameters ("oracles"). These are the
geometry and InChI library, the electronic-structure jobs and readers, the
projector, the fitters, `get_valid_tk`, `assess_pressure_dependence`, the
block builders and the formula of a reaction's InChIs. The exceptions the
model covers become error values (the ones it does not cover are listed
under "## Left out"):
- an `IndexError`, `KeyError` or `UnboundLocalError` in `make_channel_pfs`;
- the `KeyError` on `valid_calc_tk_dct[no_pdep_pval]`;
- the failed `assert`s of `mod_arr_fit`;
- in the json branch:
  - a missing `name` (`MissingName`);
  - a reaction without reactants, whose formula `''` has no `items()`
    (`NoReactantFormula`);
  - an empty mechanism, so that `RXN_INFO_LST[0]` fails (`EmptyMechanism`);
  - sensitivities that are given for some reactions and `''` for others
    (`MixedSensitivity`). Python then fails comparing `''` with a number,
    either in `max` inside a group or in the final sort, which must compare
    the two neighbours where the kinds meet;
  - a mechanism in which no reaction has a sensitivity, so that the closing
    `"{:.2f}".format('')` at line 497 raises a `ValueError`
    (`UnformattedSensitivity`).

On the reuse path of an abstraction's fake well, `pst_r_ts_str`/`vdwr_ene`
(and their product-side twins) are read although only the creating path binds
them. The model reproduces this: a reused fake well always ends the call with
`UnboundLocal` (or with a `KeyError` when the `FRB`/`FPB` key is also absent);
see `NetworkProps.FakeWellReuseFaults`.

## Model

| member | source | states |
|---|---|---|
| Network.CountLabels | scripts/ktp.py:129-138 | the next indices are one more than the number of stored labels that pass each test, where the tests run in the order 'P', 'W', 'F' |
| Network.LabelKinds | scripts/ktp.py:129-138 | `P<n>` advances pidx, `W<n>` widx, `F<n>` and `FRB<n>` fidx, `FPB<n>` pidx, and a transition-state label `B<n>` none |
| Network.CountAfterNewEntry | scripts/ktp.py:129-138 | storing a new label raises exactly the count of its own kind by one |
| Network.SumEnergy | scripts/ktp.py:147-150 | the loop's side energy equals the summed species energies of that side |
| Network.ResolveReactants | scripts/ktp.py:139-178 | the table, the blocks and the label after the reactant step are those of the reactant-side specification |
| Network.ResolveProducts | scripts/ktp.py:180-214 | the same for the product step, which advances no counter and leaves the baseline alone |
| Network.SideReuse | scripts/ktp.py:151-156 | a combination already labelled in listed or reversed order reuses its label and changes neither the table nor any block, on either side |
| Network.ReactantSideNew | scripts/ktp.py:157-176 | a new reactant combination is stored under its listed key as `P<pidx>` when bimolecular and otherwise as `W<widx>`, with one block; that counter advances and the baseline is set only if it was 0 |
| Network.ProductSideNew | scripts/ktp.py:192-212 | a new product combination takes `P<pidx>` or `W<widx>` without advancing them, measured from the unchanged baseline |
| Network.BimolecularPairIndices | scripts/ktp.py:157-159 | when both sides are new and bimolecular, the products get the P index directly after the reactants' |
| Network.Clamp | scripts/ktp.py:327-332 | a strictly negative barrier becomes 0.1 and a non-negative one is passed unchanged |
| Network.AddFakeWell | scripts/ktp.py:248-286 | the table, blocks and fake label after one fake-well step are those of the fake-well specification, its error paths included |
| Network.AddRadicalTs | scripts/ktp.py:217-229 | the radical-radical block follows the specification: energy and summed zero-point energies of the bimolecular side (reactants when their label holds 'P') |
| Network.ReadImagFreq | scripts/ktp.py:237-239 | the imaginary frequency is the absolute value of the stored one, or 0 when none is stored |
| Network.AddAbstractionSaddle | scripts/ktp.py:326-336 | the abstraction saddle joins the two fake wells, and its Eckart barriers are measured from the fake-well energies and clamped |
| Network.AddAbstractionTs | scripts/ktp.py:246-336 | both fake wells and then the saddle, with the call stopping at the first fault |
| Network.AddTightTs | scripts/ktp.py:338-347 | the tight saddle joins the two side labels, and its Eckart barriers are measured from the side energies and clamped |
| Network.AddTransitionStates | scripts/ktp.py:216-347 | the classification picks the radical-radical, abstraction or tight branch, in that order |
| Network.MakeChannelPfs | scripts/ktp.py:118-349 | the table left in place and the result (blocks as `[well, bim, ts]` and the baseline, or the exception) are the channel specification's |
| Network.IndexTable.Set | scripts/ktp.py:167 | an assignment to `idx_dct` overwrites the key or appends it, and nothing else changes |
| NetworkProps.FakeWellNew | scripts/ktp.py:248-276 | a new fake well is `F<fidx>`, stored under `"F" + key`, 1.0 below the side energy; its PST label `prefix + (k+1)` is stored under the key with every 'F' replaced, a key distinct from the fake-well key; the PST block links the side label to the fake well |
| NetworkProps.FakeWellReuseFaults | scripts/ktp.py:277-286 | a fake well found in either order leaves the table alone and ends the call with the unbound-local or the key error |
| NetworkProps.ChannelGrowsTable | scripts/ktp.py:118-349 | every key already in `idx_dct` stays and the keys stay unique, on success and on failure (values can change: see the next row) |
| NetworkProps.PstKeyOverwrites | scripts/ktp.py:263-266 | the `FRB` key of a new fake well can be a key already present, whose label is then overwritten: a fake well for `A+B` relabels the pair entry `FRBA+B` to `FRB1` |
| NetworkProps.ChannelFirstGround | scripts/ktp.py:160-161 | the returned baseline is the reactant energy exactly when it was 0 and the reactant combination is new, and the old baseline otherwise |
| NetworkProps.TransitionStatesKeepGround | scripts/ktp.py:216-347 | the transition-state part never changes the baseline |
| NetworkProps.TightChannelReuse | scripts/ktp.py:151-156 | a tight channel whose sides are both labelled changes no table entry and no well or bimolecular block, and appends exactly one saddle `B<k+1>` between the stored labels, with non-negative barriers |
| NetworkProps.ChannelResolvesBothSides | scripts/ktp.py:151-214 | after a successful call both combinations are labelled in both orders, so a later call reuses them |
| NetworkProps.ReactantSideAdvancesStart | scripts/ktp.py:129-176 | after a new reactant entry the next call's counters start one higher for exactly that entry's kind |
| SpeciesData.BuildNames | scripts/ktp.py:57-60 | the inner loop builds a species block exactly for the names not yet built, in order |
| SpeciesData.MakeAllSpeciesData | scripts/ktp.py:47-64 | the blocks, the builder calls and the imaginary frequencies written are those of the all-reactions specification |
| SpeciesData.AddNamesMemoised | scripts/ktp.py:57-60 | the inner loop keeps the memo table consistent with the build log, only appends builds of species, and afterwards holds exactly the old names and the listed ones |
| SpeciesData.AllSpeciesFacts | scripts/ktp.py:52-63 | a name has a block iff some reaction with a found transition state contributes it: as reactant, as product, or as that transition state when it is not a radical-radical addition |
| SpeciesData.SpeciesBuiltOnce | scripts/ktp.py:58-60 | no species block is built twice |
| SpeciesData.AllSpeciesTsBuilds | scripts/ktp.py:61-63 | every transition-state build is of a found transition state whose class is not a radical-radical addition |
| Rates.MessInputSections | scripts/ktp.py:366 | the input holds the five sections in order, separated by four line breaks |
| Rates.ReadRates | scripts/ktp.py:409-441 | the table, or the missing-pressure error, is that of the read-rates specification |
| Rates.CalcKsFacts | scripts/ktp.py:410-421 | the computed dictionary has exactly the pressures read, each once, with the rate constants read for it |
| Rates.ValidTkFacts | scripts/ktp.py:425-429 | a pressure is kept iff its filtered curve is non-empty, and it is kept with that curve |
| Rates.ReadRatesFacts | scripts/ktp.py:425-441 | the retained pressures are those read that have a non-empty filtered curve; the result is the filtered table when pressure-dependent, otherwise exactly `{'high': filtered[no_pdep_pval]}`, or the key error when that entry is absent |
| Rates.FitAllParams | scripts/ktp.py:465-482 | the parameter loop yields the fit of each curve under its pressure |
| Rates.FitAllCurves | scripts/ktp.py:485-503 | the fitted-curve loop yields one curve per parameter entry |
| Rates.FitAllErrors | scripts/ktp.py:506-516 | the error loop yields one error pair per fitted curve |
| Rates.ModArrFit | scripts/ktp.py:447-525 | the result is that of the fit specification, including the assertion failure |
| Rates.FitParamsKeys | scripts/ktp.py:465-482 | the parameter keys are the rate-table keys |
| Rates.FitKsKeys | scripts/ktp.py:485-503 | the fitted-curve keys are the parameter keys |
| Rates.FitErrsKeys | scripts/ktp.py:506-516 | the error keys are the fitted-curve keys |
| Rates.FitParamsValues | scripts/ktp.py:465-482 | each stored parameter set is the fit of that pressure's curve |
| Rates.ModArrFitKeys | scripts/ktp.py:456-523 | the fit succeeds iff the fit type is single or double and the method is dsarrfit; then the parameter keys are the table keys plus 'high', the error keys are the table keys, and 'high' is `[1,0,0]` or `[1,0,0,1,0,0]` when the table has none, else the fit of the 'high' curve |
| ImagModes.InitialGeometryOpt | moldr/geom.py:149-188 | the optimisation gets a z-matrix iff the start is connected; the result is the job's geometry, and extra information is kept iff that geometry is disconnected |
| ImagModes.CheckImaginary | moldr/geom.py:229-277 | an atom runs no job and gives no imaginary mode with the empty Hessian; otherwise one Hessian job; the mode is imaginary iff a non-empty Hessian was parsed and the projector reports a non-zero frequency, and only then is a displacement returned |
| ImagModes.KickoffLength | moldr/geom.py:290-292 | the displacement length is `kickoff_size * ANG2BOHR`, negated when backward |
| ImagModes.Scale | moldr/geom.py:293 | every displacement vector is multiplied by the length |
| ImagModes.KickoffDirection | moldr/geom.py:290-314 | backward is the exact negation of forward, and a failed re-optimisation returns the displaced geometry |
| ImagModes.RemoveImag | moldr/geom.py:191-226 | the loop's geometry, Hessian, kick count and jobs are those of the removal specification |
| ImagModes.CheckRemovesNothing | moldr/geom.py:229-277 | a check never removes a Hessian job |
| ImagModes.RemoveImagBounded | moldr/geom.py:204-226 | at most 5 kickoffs; none, and the geometry unchanged, when the first check finds no imaginary mode; fewer than 5 only when the last check found none; one Hessian removal per kickoff |
| RefGeom.RunStore.WriteStatus | moldr/geom.py:47 | writing the run info sets the status and logs the write |
| RefGeom.PickStart | moldr/geom.py:53-86 | the missing-geometry error occurs exactly for `'input_geom'` without `geo_obj`; the saved target geometry is used iff it is the chosen source; otherwise the start geometry and the overwrite flag are the specified ones |
| RefGeom.RunCheckModes | moldr/geom.py:101-119 | the imaginary-mode and conformer step logs what its specification lists and leaves the status alone |
| RefGeom.SaveReference | moldr/geom.py:99-132 | everything after the optimisation logs what its specification lists and returns its geometry |
| RefGeom.RunOptimise | moldr/geom.py:88-132 | the optimisation path's log, geometry and exception flag are the specification's |
| RefGeom.RunBody | moldr/geom.py:51-132 | the guarded body's log, geometry and exception flag are the specification's, without any status write |
| RefGeom.RunLeased | moldr/geom.py:51-146 | after the body, the final status is written once, and it is SUCCESS iff the body raised nothing and the geometry is truthy |
| RefGeom.ReferenceGeometry | moldr/geom.py:14-146 | the call only appends to the log, and its status, appended events and return value are the reference-geometry specification's |
| RefGeom.LeaseHeld | moldr/geom.py:34-38 | a RUNNING marker makes the call return None, write nothing and leave the marker |
| RefGeom.StatusProtocol | moldr/geom.py:34-144 | without info, RUNNING is written first; existing info is never rewritten to RUNNING; the last write is the final status; SUCCESS iff no exception and a truthy geometry, FAILURE otherwise |
| RefGeom.BodyWritesNoStatus | moldr/geom.py:51-132 | the body itself never writes the status |
| RefGeom.RaisePoints | moldr/geom.py:53-101 | the body raises iff `ich`/`chg`/`mul` is missing, or `geo_obj` is missing under `'input_geom'`, or the optimisation returns no geometry and the atom test fails on it |
| RefGeom.ExceptionIsFailure | moldr/geom.py:142-146 | an exception in the body ends in FAILURE and returns the geometry bound when it was raised, which is none at each modelled raise point |
| RefGeom.StartPriority | moldr/geom.py:54-88 | sources rank as input geometry, saved target geometry, saved initial geometry, `geo_obj`, InChI; a saved target geometry is used with no job; otherwise the first job optimises the chosen start geometry with overwrite forced by `'input_geom'` |
| RefGeom.AfterOptPaths | moldr/geom.py:101-132 | the imaginary check runs iff not an atom and connected; conformers are removed iff the torsion names differ; a connected result takes the single-conformer path, a disconnected one the fake-conformer path |
| Mechanism.SpeciesFields | scripts/estoktpb.py:409-412 | the species loop collects the InChIs, multiplicities and names in order |
| Mechanism.BuildLists | scripts/estoktpb.py:399-454 | the corrected list-building loop (a reaction without `Products` appends empty product fields) yields the parallel lists of the build specification or its first error |
| Mechanism.GroupMaxima | scripts/estoktpb.py:467-481 | the scan yields the formula groups and their running maxima of the specification |
| Mechanism.BuildSensDct | scripts/estoktpb.py:482-484 | `sens_dct` is filled from the two lists |
| Mechanism.JsonMechanism | scripts/estoktpb.py:399-497 | the whole branch, over the corrected loop, yields the mechanism specification's reordered lists or its error |
| Mechanism.BuildErrSticks | scripts/estoktpb.py:399-454 | once a reaction fails, later reactions do not change the outcome |
| MechanismProps.BuildOk | scripts/estoktpb.py:399-454 | the lists build iff every reaction has a name and reactants; then the lists are aligned, one entry per reaction, each entry carrying that reaction's fields with `''` defaults |
| MechanismProps.BuildErr | scripts/estoktpb.py:406-454 | an error names the first reaction without a name (MissingName) or without reactants |
| MechanismProps.UnzipZip | scripts/estoktpb.py:456-494 | unzipping the zip of aligned lists gives the lists back |
| MechanismProps.ZipUnzip | scripts/estoktpb.py:456-494 | zipping the unzip of entries gives the entries back |
| MechanismProps.ByFormulaFacts | scripts/estoktpb.py:466 | the first sort is a permutation with non-decreasing formulas |
| MechanismProps.GroupsFacts | scripts/estoktpb.py:467-481 | the groups have distinct formulas, exactly those occurring, each with a maximum that some entry attains and that no entry of the group exceeds |
| MechanismProps.SensDctFacts | scripts/estoktpb.py:482-484 | `sens_dct` has one key per distinct formula, mapped to that group's maximum |
| MechanismProps.SensTableIsGroupMax | scripts/estoktpb.py:466-484 | `sens_dct[f]` is the maximum sensitivity over all reactions of formula f |
| MechanismProps.MechanismBuildError | scripts/estoktpb.py:399-454 | a build error is the branch's result |
| MechanismProps.MechanismEmpty | scripts/estoktpb.py:467 | the branch fails on indexing the first entry iff the mechanism is empty |
| MechanismProps.MechanismMixed | scripts/estoktpb.py:424-485 | the branch fails on comparison iff some reactions have a sensitivity and others do not |
| MechanismProps.MechanismUnformatted | scripts/estoktpb.py:496-497 | the closing print fails iff the loop got through a non-empty mechanism in which no reaction has a sensitivity |
| MechanismProps.MechanismOk | scripts/estoktpb.py:399-497 | the branch succeeds iff the mechanism is non-empty and every reaction has a name, a reactant and a sensitivity |
| MechanismProps.MechanismOrder | scripts/estoktpb.py:485-494 | on success every reaction has a sensitivity, and the final lists are aligned, a permutation of the reactions, and non-increasing in (group maximum, own sensitivity) |
| MechanismProps.AsWrittenAgrees | scripts/estoktpb.py:416-423 | when every reaction has `Products`, the loop as written builds the same lists as the corrected one |
| MechanismProps.AsWrittenErrAgrees | scripts/estoktpb.py:399-454 | the loop as written fails exactly when the corrected loop does, with the same error, whatever `Products` hold |
| MechanismProps.MechanismAsWrittenBuildError | scripts/estoktpb.py:399-497 | when the loop fails, the branch as written ends with the corrected branch's error |
| MechanismProps.MechanismAsWrittenAgrees | scripts/estoktpb.py:399-497 | when every reaction has `Products`, the branch as written ends exactly as the corrected one |
| MechanismProps.RxnNameSplits | scripts/estoktpb.py:348 | the name splits at '=' into the two joined sides and at '+' back into the names, when the names hold neither character |
| StableSort.SortRearranges | scripts/estoktpb.py:466 | Python's sort rearranges its input: the same multiset, each element carrying the position it came from |
| StableSort.SortOrders | scripts/estoktpb.py:466-485 | the sort is non-decreasing in the comparison and keeps elements the comparison does not separate in input order |
| Text.SplitJoin | scripts/estoktpb.py:348 | splitting a join at its separator gives back the parts when none contains it |

## Left out

- All file and process I/O is left out: reading `rate.out`, writing `mess.inp`, running MESS and the projector, `os` calls, and every `print` but one. That one is the closing print at line 497 of scripts/estoktpb.py: its `ValueError` on a missing sensitivity is modelled as `UnformattedSensitivity`, and what it writes is not. None of the rest affects the bookkeeping.
- The `autofile` file systems, `moldr.driver.run_job`/`read_job` and the `elstruct` readers are foreign calls. They become the `RunStore` log and oracles on their inputs.
- The `automol`, `thermo` and `projrot_io` libraries are oracles. This covers `is_atom`, the connected components, `zmatrix`, `displaced`, the torsion names, the InChI geometry and the InChI formula.
- The Arrhenius fitters, the fitted-curve and error computations, `get_valid_tk` and `assess_pressure_dependence` are oracles over floating-point numerics. Only the structure of the dictionaries is modelled.
- The `mess_io.writer` and `moldr.pf` text and `make_species_data`/`make_fake_species_data` are records or opaque strings. The writers' output format is not part of this model.
- The normal-coordinate extraction (numpy) is an oracle returning the displacement.
- `phycon.ANG2BOHR` is not part of this model. It is a constant with the CODATA value.
- `thy_save_fs.leaf.create` and the path computations only create directories, so they are not logged.
- Network.MakeChannelPfs: `KeyError`s from `spc_dct[...]` and `species_data[...]` lookups are not modelled. Species data are total functions of the name.
- SpeciesData.MakeAllSpeciesData: `'ts_{:g}'.format(idx)` is modelled as the decimal form of a natural index. That is correct only below 10^6. From `idx` = 1000000 on, `{:g}` gives the exponent form (`ts_1e+06`), on which `int(tsname.replace('ts_', ''))` in `make_channel_pfs` would raise a `ValueError`; that path is not modelled.
- Network.MakeChannelPfs: the TS index is the natural number `k` of `ts_k`. `int(tsname.replace('ts_', ''))` on other names is not modelled.
- Network.SumEnergy: the energies are real numbers without floating-point rounding.
- Network.NewGround: `first_ground_ene` is a real number, and an unset baseline (`None`, or any other falsy value) is represented as 0.0. The test `if not first_ground_ene` (scripts/ktp.py:160 and 169) is the test `== 0.0`.
- RefGeom.ReferenceGeometry: the bare `except:` also catches failures of the foreign calls, which are not modelled. The body raises in the model at three points only (`RefGeom.RaisePoints`): a missing `ich`/`chg`/`mul` entry, `geo_obj` missing under `'input_geom'`, and the atom test on an optimisation that returned no geometry.
- RefGeom.ExceptionIsFailure: the foreign steps after a successful optimisation (`remove_imag`, the saves, `run_single_conformer`, `fake_conf`) cannot raise in the model. When one raises, the source returns the geometry bound at that moment with FAILURE; that path is not modelled.
- ImagModes.CheckImaginary: `projrot_frequencies` is an oracle for its output files. Only the precedence of `hrproj_freq.dat` over `RTproj_freq.dat` is kept.
- Mechanism.BuildLists: models the corrected loop, in which a reaction without `Products` appends empty product fields. The loop as written (`Mechanism.BuildAsWritten`) appends nothing to the product lists, so that the zip truncates (see Findings). The two agree when every reaction has `Products` (`MechanismProps.AsWrittenAgrees`).
- Mechanism.JsonMechanism: runs the corrected loop. The branch as written is `Mechanism.MechanismAsWritten`. It ends as the corrected one when every reaction has `Products` (`MechanismProps.MechanismAsWrittenAgrees`).
- MechanismProps.BuildOk: proved of the corrected loop. For the loop as written it holds when every reaction has `Products`, by `MechanismProps.AsWrittenAgrees`. Otherwise the product lists are shorter and the zip truncates.
- MechanismProps.MechanismEmpty: proved of the corrected branch. For the branch as written it holds when every reaction has `Products`, by `MechanismProps.MechanismAsWrittenAgrees`. Otherwise, mechanisms in which no reaction has `Products` also fail at `RXN_INFO_LST[0]`.
- MechanismProps.MechanismMixed: proved of the corrected branch. For the branch as written it holds when every reaction has `Products`, by `MechanismProps.MechanismAsWrittenAgrees`. Otherwise the truncated zip drops reactions, and the sensitivities it compares are those of the reactions kept.
- MechanismProps.MechanismUnformatted: proved of the corrected branch. For the branch as written it holds when every reaction has `Products`, by `MechanismProps.MechanismAsWrittenAgrees`. Otherwise the truncated zip decides: a file in which no reaction has `Products` fails at `RXN_INFO_LST[0]` (line 467), not at line 497, and only the sensitivities of the reactions kept are printed.
- MechanismProps.MechanismOk: proved of the corrected branch. For the branch as written it holds when every reaction has `Products`, by `MechanismProps.MechanismAsWrittenAgrees`. Otherwise success depends only on the reactions the truncated zip keeps. For example, `a` without `Products` and with a sensitivity, followed by `b` with `Products` and no sensitivity, succeeds as written, since only `a` is kept.
- MechanismProps.MechanismOrder: proved of the corrected branch. For the branch as written it holds when every reaction has `Products`, by `MechanismProps.MechanismAsWrittenAgrees`. Otherwise the final lists are a rearrangement of the truncated, misaligned zip.
- Mechanism.JsonMechanism: every species entry of `Reactants` and `Products` is taken to have its `InChi`, `multiplicity` and `name` keys (a `Species` is a total record). The `KeyError` that a missing key raises at lines 410-412 or 418-420 of scripts/estoktpb.py is not modelled.
- Mechanism.JsonMechanism: JSON parsing and the formula string are inputs. The formula order is plain code-point order of the strings.
- Mechanism.JsonMechanism: mixed `''`/numeric sensitivity is one error outcome. Which comparison raises, and what was printed first, are not modelled.
- The CHEMKIN branch and the configuration of scripts/estoktpb.py are outside this model, except the name join at line 348.

## Findings

| source | as written | input that shows it | evidently intended | confidence | as-written member | corrected member |
|---|---|---|---|---|---|---|
| scripts/estoktpb.py:416-423 | a reaction without a `Products` key appends nothing to `PRD_NAMES_LST`, `PRD_ICHS_LST` and `PRD_MULS_LST`, so the later `zip` truncates and pairs reactions with the wrong products | reactions `a` (no `Products`) and `b` (product `pc`): the zip holds one entry, `a` with `b`'s products | every reaction contributes one (possibly empty) entry to every list, keeping the lists aligned | not executed | MechanismProps.AsWrittenMisaligns | MechanismProps.CorrectedAligns |
