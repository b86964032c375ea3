/** `reference_geometry` of moldr/geom.py: the run-status marker that acts
    as a lease, the priority of the starting-geometry sources, the
    optimisation and imaginary-mode removal, the conformer bookkeeping, and
    the final status.

    The file systems are a `RunStore` holding the run-status file and a log
    of what is written or started, in order; what is read from the file
    systems and from the species dictionary is given as `Inputs`. */
module RefGeom {
  import opened Wrappers
  import ImagModes

  datatype RunStatus = Running | Success | Failure

  /** What the function writes or starts, in order. */
  datatype Event =
    | StatusWritten(status: RunStatus)                       // run_fs.trunk.file.info.write
    | InitialOpt(geoInit: ImagModes.Geom, overwrite: bool)   // run_initial_geometry_opt
    | ImagRemoved(kicks: nat)                                // remove_imag
    | ConformersRemoved                                      // cnf_run_fs.remove(); cnf_save_fs.remove()
    | HessianSaved(hess: ImagModes.Hess)
    | GeometrySaved(geo: ImagModes.Geom)
    | ZmatrixSaved(zma: string)
    | SingleConformer(overwrite: bool)                       // scripts.es.run_single_conformer
    | FakeConformer(inf: Option<real>)                       // scripts.es.fake_conf

  /** The entries of `spc_dct_i` that are read: whether `ich`, `chg` and
      `mul` are all present, the optional `geo_obj`, and the geometry
      `automol.inchi.geometry` derives from the InChI. */
  datatype Species = Species(hasInfo: bool, geoObj: Option<ImagModes.Geom>, inchiGeo: ImagModes.Geom)

  /** What the call reads: the species, whether `'input_geom'` is in the
      initial level, the geometry saved at the target level, whether the
      initial-level file system is given and its saved geometry, the
      torsion names of the first saved conformer (`None` without
      conformers), and the options. */
  datatype Inputs = Inputs(
    spc: Species, iniInputGeom: bool, savedGeo: Option<ImagModes.Geom>,
    iniFs: bool, iniSavedGeo: Option<ImagModes.Geom>, savedTorsions: Option<seq<string>>,
    overwrite: bool, kickoffSize: real, kickoffBackward: bool)

  /** The geometry oracles, and `zmatrix_torsion_coordinate_names`. */
  datatype Oracles = Oracles(geo: ImagModes.Oracles, torsionNames: ImagModes.Geom -> seq<string>)

  /** A geometry is truthy when it has atoms. */
  predicate Truthy(geo: Option<ImagModes.Geom>)
  {
    geo.Some? && |geo.value| > 0
  }

  /** Where the starting geometry comes from, in priority order. */
  datatype Source = FromInput | SavedTarget | SavedInitial | FromGeoObj | FromInchi

  function StartSource(inp: Inputs): Source
  {
    if inp.iniInputGeom then FromInput
    else if Truthy(inp.savedGeo) then SavedTarget
    else if inp.iniFs && inp.iniSavedGeo.Some? then SavedInitial
    else if inp.spc.geoObj.Some? then FromGeoObj
    else FromInchi
  }

  /** The events of the body, the geometry it ends with, and whether it
      raised. */
  datatype BodyOut = BodyOut(events: seq<Event>, geo: Option<ImagModes.Geom>, raised: bool)

  /** The imaginary-mode check of a connected molecule that is not an
      atom: the geometry it leaves and the events, including the conformer
      purge when the saved conformer's torsion names differ. */
  function CheckModes(inp: Inputs, o: Oracles, geo: ImagModes.Geom): (ImagModes.Geom, seq<Event>)
  {
    if !o.geo.isAtom(geo) && o.geo.components(geo) < 2 then
      var st := ImagModes.RemoveImagSpec(geo, inp.kickoffSize, inp.kickoffBackward, o.geo);
      var geo2 := st.check.geo;
      var purge := inp.savedTorsions.Some? && o.torsionNames(geo2) != inp.savedTorsions.value;
      (geo2, [ImagRemoved(st.kicks)] + (if purge then [ConformersRemoved] else []) + [HessianSaved(st.check.hess)])
    else (geo, [])
  }

  /** The saves after the check: the geometry, then the z-matrix and the
      single conformer for a connected molecule, a fake conformer otherwise. */
  function Saves(o: Oracles, geo: ImagModes.Geom, inf: Option<real>, overwrite: bool): seq<Event>
  {
    [GeometrySaved(geo)]
      + if o.geo.components(geo) < 2 then [ZmatrixSaved(o.geo.zmatrix(geo)), SingleConformer(overwrite)]
        else [FakeConformer(inf)]
  }

  /** After an optimisation. */
  function AfterOpt(inp: Inputs, o: Oracles, geo: ImagModes.Geom, inf: Option<real>, overwrite: bool): BodyOut
  {
    var (geo2, pre) := CheckModes(inp, o, geo);
    BodyOut(pre + Saves(o, geo2, inf, overwrite), Some(geo2), false)
  }

  /** The geometry the optimisation starts from, for every source but the
      saved target geometry. */
  function StartGeometry(inp: Inputs): ImagModes.Geom
    requires StartSource(inp) != FromInput || inp.spc.geoObj.Some?
  {
    match StartSource(inp)
    case FromInput => inp.spc.geoObj.value
    case SavedInitial => inp.iniSavedGeo.value
    case FromGeoObj => inp.spc.geoObj.value
    case _ => inp.spc.inchiGeo
  }

  /** The `try` body. */
  function Body(inp: Inputs, o: Oracles): BodyOut
  {
    if !inp.spc.hasInfo then BodyOut([], None, true)
    else
      var src := StartSource(inp);
      if src == SavedTarget then BodyOut([], inp.savedGeo, false)
      else if src == FromInput && inp.spc.geoObj.None? then BodyOut([], None, true)
      else
        Optimise(inp, o, StartGeometry(inp), inp.overwrite || src == FromInput)
  }

  /** The optimisation from `geoInit` and what follows it; an optimisation
      that returns no geometry raises at the atom test. */
  function Optimise(inp: Inputs, o: Oracles, geoInit: ImagModes.Geom, overwrite: bool): BodyOut
  {
    var out := ImagModes.InitialGeometryOpt(geoInit, o.geo);
    if out.geo.None? then BodyOut([InitialOpt(geoInit, overwrite)], None, true)
    else
      var rest := AfterOpt(inp, o, out.geo.value, out.inf, overwrite);
      BodyOut([InitialOpt(geoInit, overwrite)] + rest.events, rest.geo, false)
  }

  /** The whole call from the status found: the status left, the events
      and the returned geometry. */
  function ReferenceGeometrySpec(status0: Option<RunStatus>, inp: Inputs, o: Oracles)
    : (Option<RunStatus>, seq<Event>, Option<ImagModes.Geom>)
  {
    if status0 == Some(Running) then (status0, [], None)
    else
      var lease := if status0.None? then [StatusWritten(Running)] else [];
      var body := Body(inp, o);
      var final := FinalStatus(body);
      (Some(final), lease + body.events + [StatusWritten(final)], body.geo)
  }

  /** The status written after the body: SUCCESS when it did not raise and
      returned a geometry with atoms. */
  function FinalStatus(body: BodyOut): RunStatus
  {
    if !body.raised && Truthy(body.geo) then Success else Failure
  }

  /** The run file system: the status file and everything written or
      started so far. */
  class RunStore {
    var status: Option<RunStatus>
    var log: seq<Event>

    constructor (status0: Option<RunStatus>)
      ensures status == status0 && log == []
    {
      status := status0;
      log := [];
    }

    method WriteStatus(s: RunStatus)
      modifies this
      ensures status == Some(s) && log == old(log) + [StatusWritten(s)]
    {
      status := Some(s);
      log := log + [StatusWritten(s)];
    }

    method Record(e: Event)
      modifies this
      ensures status == old(status) && log == old(log) + [e]
    {
      log := log + [e];
    }
  }

  /** The imaginary-mode check, as written. */
  method RunCheckModes(store: RunStore, inp: Inputs, o: Oracles, geo0: ImagModes.Geom)
    returns (geo: ImagModes.Geom)
    modifies store
    ensures store.status == old(store.status)
    ensures geo == CheckModes(inp, o, geo0).0
    ensures store.log == old(store.log) + CheckModes(inp, o, geo0).1
  {
    geo := geo0;
    if !o.geo.isAtom(geo) && o.geo.components(geo) < 2 {
      var hess, kicks, jobs;
      geo, hess, kicks, jobs := ImagModes.RemoveImag(geo, inp.kickoffSize, inp.kickoffBackward, o.geo);
      store.Record(ImagRemoved(kicks));
      ghost var mid := store.log;
      var torsNames := o.torsionNames(geo);
      var purged := false;
      if inp.savedTorsions.Some? {
        if torsNames != inp.savedTorsions.value {
          store.Record(ConformersRemoved);
          purged := true;
        }
      }
      assert store.log == mid + (if purged then [ConformersRemoved] else []);
      store.Record(HessianSaved(hess));
      assert store.log == old(store.log) + CheckModes(inp, o, geo0).1;
    }
  }

  /** The saves, as written. */
  method RunSaves(store: RunStore, o: Oracles, geo: ImagModes.Geom, inf: Option<real>, overwrite: bool)
    modifies store
    ensures store.status == old(store.status)
    ensures store.log == old(store.log) + Saves(o, geo, inf, overwrite)
  {
    store.Record(GeometrySaved(geo));
    if o.geo.components(geo) < 2 {
      store.Record(ZmatrixSaved(o.geo.zmatrix(geo)));
      store.Record(SingleConformer(overwrite));
    } else {
      store.Record(FakeConformer(inf));
    }
  }

  /** The steps after a successful optimisation. */
  method SaveReference(store: RunStore, inp: Inputs, o: Oracles, geo0: ImagModes.Geom, inf: Option<real>,
                       overwrite: bool)
    returns (geo: ImagModes.Geom)
    modifies store
    ensures store.status == old(store.status)
    ensures var out := AfterOpt(inp, o, geo0, inf, overwrite);
      store.log == old(store.log) + out.events && Some(geo) == out.geo
  {
    geo := RunCheckModes(store, inp, o, geo0);
    RunSaves(store, o, geo, inf, overwrite);
  }

  /** The choice of the starting geometry, as written: `geo` is the saved
      target geometry when it is read, and `geoInit` and the `overwrite`
      flag are what the optimisation is given when `geo` is falsy. */
  method PickStart(inp: Inputs)
    returns (geo: Option<ImagModes.Geom>, geoInit: ImagModes.Geom, overwrite: bool, raised: bool)
    requires inp.spc.hasInfo
    ensures raised <==> StartSource(inp) == FromInput && inp.spc.geoObj.None?
    ensures !raised ==> (Truthy(geo) <==> StartSource(inp) == SavedTarget)
    ensures !raised && Truthy(geo) ==> geo == inp.savedGeo
    ensures !raised && !Truthy(geo) ==> geoInit == StartGeometry(inp) && overwrite == (inp.overwrite || inp.iniInputGeom)
  {
    geo, geoInit, overwrite, raised := None, [], inp.overwrite, false;
    if inp.iniInputGeom {
      if inp.spc.geoObj.None? {
        return None, [], overwrite, true;
      }
      geoInit := inp.spc.geoObj.value;
      overwrite := true;
    } else {
      if inp.savedGeo.Some? {
        geo := inp.savedGeo;
      }
      if !Truthy(geo) {
        if inp.iniFs && inp.iniSavedGeo.Some? {
          geoInit := inp.iniSavedGeo.value;
        } else if inp.spc.geoObj.Some? {
          geoInit := inp.spc.geoObj.value;
        } else {
          geoInit := inp.spc.inchiGeo;
        }
      }
    }
  }

  /** The optimisation and what follows, as written. */
  method RunOptimise(store: RunStore, inp: Inputs, o: Oracles, geoInit: ImagModes.Geom, overwrite: bool)
    returns (geo: Option<ImagModes.Geom>, raised: bool)
    modifies store
    ensures store.status == old(store.status)
    ensures store.log == old(store.log) + Optimise(inp, o, geoInit, overwrite).events
    ensures geo == Optimise(inp, o, geoInit, overwrite).geo
    ensures raised == Optimise(inp, o, geoInit, overwrite).raised
  {
    var out := ImagModes.InitialGeometryOpt(geoInit, o.geo);
    store.Record(InitialOpt(geoInit, overwrite));
    if out.geo.None? {
      return None, true;
    }
    var g := SaveReference(store, inp, o, out.geo.value, out.inf, overwrite);
    return Some(g), false;
  }

  /** The `try` body, as written; `raised` stands for the exception. */
  method RunBody(store: RunStore, inp: Inputs, o: Oracles) returns (geo: Option<ImagModes.Geom>, raised: bool)
    modifies store
    ensures store.status == old(store.status)
    ensures store.log == old(store.log) + Body(inp, o).events
    ensures geo == Body(inp, o).geo
    ensures raised == Body(inp, o).raised
  {
    if !inp.spc.hasInfo {
      return None, true;
    }
    var geoInit, overwrite;
    geo, geoInit, overwrite, raised := PickStart(inp);
    if raised {
      assert Body(inp, o) == BodyOut([], None, true);
      return None, true;
    }
    if !Truthy(geo) {
      assert Body(inp, o) == Optimise(inp, o, geoInit, overwrite);
      geo, raised := RunOptimise(store, inp, o, geoInit, overwrite);
    } else {
      assert Body(inp, o) == BodyOut([], inp.savedGeo, false);
    }
  }

  /** The body and the final status, once the lease is held. */
  method RunLeased(store: RunStore, inp: Inputs, o: Oracles) returns (ret: Option<ImagModes.Geom>)
    modifies store
    ensures store.status == Some(FinalStatus(Body(inp, o)))
    ensures store.log == old(store.log) + (Body(inp, o).events + [StatusWritten(FinalStatus(Body(inp, o)))])
    ensures ret == Body(inp, o).geo
  {
    var geo, raised := RunBody(store, inp, o);
    var final := if !raised && Truthy(geo) then Success else Failure;
    store.WriteStatus(final);
    ret := geo;
  }

  /** `reference_geometry`. */
  method ReferenceGeometry(store: RunStore, inp: Inputs, o: Oracles) returns (ret: Option<ImagModes.Geom>)
    modifies store
    ensures |store.log| >= |old(store.log)| && store.log[..|old(store.log)|] == old(store.log)
    ensures (store.status, store.log[|old(store.log)|..], ret) == ReferenceGeometrySpec(old(store.status), inp, o)
  {
    ghost var log0 := store.log;
    ghost var status0 := store.status;
    if store.status == Some(Running) {
      assert store.log[|log0|..] == [];
      return None;
    }
    if store.status.None? {
      store.WriteStatus(Running);
    }
    ghost var lease: seq<Event> := if status0.None? then [StatusWritten(Running)] else [];
    assert store.log == log0 + lease;
    ret := RunLeased(store, inp, o);
    ghost var body := Body(inp, o);
    ghost var tail := body.events + [StatusWritten(FinalStatus(body))];
    Appended(log0, lease, tail);
    assert lease + tail == lease + body.events + [StatusWritten(FinalStatus(body))];
  }

  lemma Appended<T>(a: seq<T>, b: seq<T>, c: seq<T>)
    ensures |a + b + c| >= |a| && (a + b + c)[..|a|] == a && (a + b + c)[|a|..] == b + c
    ensures a + b + c == a + (b + c)
  {
  }

  // ---------------------------------------------------------------------
  // Properties

  /** A RUNNING marker is a held lease: nothing is written and nothing is
      returned. */
  lemma LeaseHeld(inp: Inputs, o: Oracles)
    ensures ReferenceGeometrySpec(Some(Running), inp, o) == (Some(Running), [], None)
  {
  }

  /** Without a marker, RUNNING is written before anything else; with a
      finished marker, RUNNING is never written. Either way exactly one
      final status follows, SUCCESS exactly when a geometry with atoms is
      returned and the body did not raise. */
  lemma StatusProtocol(status0: Option<RunStatus>, inp: Inputs, o: Oracles)
    requires status0 != Some(Running)
    ensures var (status, events, ret) := ReferenceGeometrySpec(status0, inp, o);
      && |events| >= 1
      && (status0.None? ==> events[0] == StatusWritten(Running))
      && (status0.Some? ==> forall i :: 0 <= i < |events| ==> events[i] != StatusWritten(Running))
      && events[|events| - 1] == StatusWritten(status.value)
      && (status == Some(Success) <==> !Body(inp, o).raised && Truthy(ret))
      && (status == Some(Failure) <==> !(!Body(inp, o).raised && Truthy(ret)))
  {
    BodyWritesNoStatus(inp, o);
  }

  /** The body itself writes no status. */
  lemma BodyWritesNoStatus(inp: Inputs, o: Oracles)
    ensures forall i :: 0 <= i < |Body(inp, o).events| ==> !Body(inp, o).events[i].StatusWritten?
  {
  }

  /** The body raises at three points: a missing `ich`, `chg` or `mul`;
      a missing `geo_obj` when `'input_geom'` is requested; and the atom
      test on an optimisation that returned no geometry. */
  lemma RaisePoints(inp: Inputs, o: Oracles)
    ensures Body(inp, o).raised <==>
      || !inp.spc.hasInfo
      || (inp.iniInputGeom && inp.spc.geoObj.None?)
      || (&& inp.spc.hasInfo && StartSource(inp) != SavedTarget
          && (StartSource(inp) != FromInput || inp.spc.geoObj.Some?)
          && ImagModes.InitialGeometryOpt(StartGeometry(inp), o.geo).geo.None?)
  {
  }

  /** A raised exception is recorded as FAILURE and the geometry bound
      when it was raised is returned: nothing, at each of the raise
      points of `RaisePoints`. */
  lemma ExceptionIsFailure(status0: Option<RunStatus>, inp: Inputs, o: Oracles)
    requires status0 != Some(Running) && Body(inp, o).raised
    ensures ReferenceGeometrySpec(status0, inp, o).0 == Some(Failure)
    ensures ReferenceGeometrySpec(status0, inp, o).2 == Body(inp, o).geo
    ensures ReferenceGeometrySpec(status0, inp, o).2 == None
  {
  }

  /** The starting geometry: the input geometry (with `overwrite` forced on)
      when `'input_geom'` is requested; else a truthy saved target geometry,
      returned with no job at all; else the initial-level geometry, `geo_obj`,
      and the InChI geometry, in that order. */
  lemma StartPriority(inp: Inputs, o: Oracles)
    requires inp.spc.hasInfo
    ensures StartSource(inp) == SavedTarget ==> Body(inp, o) == BodyOut([], inp.savedGeo, false)
    ensures var b := Body(inp, o);
      StartSource(inp) != SavedTarget && !(StartSource(inp) == FromInput && inp.spc.geoObj.None?) ==>
      && |b.events| >= 1 && b.events[0].InitialOpt?
      && b.events[0].geoInit == StartGeometry(inp)
      && b.events[0].overwrite == (inp.overwrite || inp.iniInputGeom)
    ensures StartSource(inp) == FromInput <==> inp.iniInputGeom
    ensures StartSource(inp) == SavedTarget <==> !inp.iniInputGeom && Truthy(inp.savedGeo)
    ensures StartSource(inp) == SavedInitial
        <==> !inp.iniInputGeom && !Truthy(inp.savedGeo) && inp.iniFs && inp.iniSavedGeo.Some?
  {
  }

  /** After the optimisation: the imaginary-mode check runs only for a
      connected molecule that is not an atom; conformer data is removed
      exactly when its torsion names differ from the new geometry's; the
      z-matrix and single-conformer path is taken exactly for a connected
      result, the fake-conformer path otherwise. */
  lemma AfterOptPaths(inp: Inputs, o: Oracles, geo: ImagModes.Geom, inf: Option<real>, overwrite: bool)
    ensures var out := AfterOpt(inp, o, geo, inf, overwrite);
      var checked := !o.geo.isAtom(geo) && o.geo.components(geo) < 2;
      var geo2 := out.geo.value;
      && (checked <==> out.events[0].ImagRemoved?)
      && (checked ==> (ConformersRemoved in out.events
                       <==> inp.savedTorsions.Some? && o.torsionNames(geo2) != inp.savedTorsions.value))
      && (!checked ==> ConformersRemoved !in out.events && geo2 == geo)
      && (o.geo.components(geo2) < 2 <==> SingleConformer(overwrite) in out.events)
      && (o.geo.components(geo2) < 2 <==> FakeConformer(inf) !in out.events)
  {
    var (geo2, pre) := CheckModes(inp, o, geo);
    var saves := Saves(o, geo2, inf, overwrite);
    assert AfterOpt(inp, o, geo, inf, overwrite) == BodyOut(pre + saves, Some(geo2), false);
    assert ConformersRemoved !in saves && SingleConformer(overwrite) !in pre && FakeConformer(inf) !in pre;
    assert saves[0].GeometrySaved?;
    assert forall x :: x in pre + saves <==> x in pre || x in saves;
  }
}
