/** The initial optimisation and the imaginary-mode removal of moldr/geom.py:
    `run_initial_geometry_opt`, `run_check_imaginary`, `run_kickoff_saddle`
    and the bounded retry loop `remove_imag`.

    The electronic-structure jobs, the file system they write to and the
    geometry library are oracles. Each job the code starts is recorded in a
    job log, so that the order of the jobs can be stated. */
module ImagModes {
  import opened Wrappers

  datatype Atom = Atom(symbol: string, x: real, y: real, z: real)

  type Geom = seq<Atom>

  /** A displacement vector per atom. */
  type Disp = seq<(real, real, real)>

  /** A Hessian as parsed; `((), ())` before anything is parsed. */
  type Hess = seq<seq<real>>

  const EmptyHess: Hess := [[], []]

  /** What an optimisation job is given: Cartesian coordinates or a z-matrix. */
  datatype Coords = Cart(geo: Geom) | ZMat(zma: string)

  /** One job started on the run file system. */
  datatype Job = Optimization(input: Coords) | Hessian(geo: Geom) | RemoveHessian

  /** The projector's two possible outputs: the imaginary frequency read from
      `hrproj_freq.dat` when that file exists, else from `RTproj_freq.dat`;
      0 reads as no imaginary frequency. */
  datatype ProjOut = ProjOut(hrprojExists: bool, hrprojImag: real, rtprojImag: real)

  /** `automol.geom.is_atom`, the number of connected components of the
      geometry's graph, `automol.geom.zmatrix`, the result of an optimisation
      job (`None` when it failed), the energy read from it, the Hessian read
      from a Hessian job, the projector, the imaginary normal mode,
      `automol.geom.displaced`.

      A Hessian job's result depends on the geometry alone, so the removal
      of the saved Hessian (`RemoveHessian` in the job log) is recorded but
      does not change any later result: a rerun at the same geometry reads
      the same Hessian. */
  datatype Oracles = Oracles(
    isAtom: Geom -> bool, components: Geom -> nat, zmatrix: Geom -> string,
    optResult: Coords -> Option<Geom>, optEnergy: Coords -> real,
    hessResult: Geom -> Option<Hess>, projector: (Geom, Hess) -> ProjOut,
    normalMode: (Geom, Hess) -> Disp, displaced: (Geom, Disp) -> Geom)

  /** `phycon.ANG2BOHR` (phycon is not part of this model; the CODATA value). */
  const Ang2Bohr: real := 1.8897261254578281

  // ---------------------------------------------------------------------
  // run_initial_geometry_opt

  /** The optimised geometry, the extra information kept for a disconnected
      result (the job's energy), and the job started. */
  datatype OptOutcome = OptOutcome(geo: Option<Geom>, inf: Option<real>, job: Job)

  function InitialGeometryOpt(geoInit: Geom, o: Oracles): (r: OptOutcome)
    ensures r.job.Optimization?
    ensures r.job.input.ZMat? <==> o.components(geoInit) < 2
    ensures r.job.input == Cart(geoInit) || r.job.input == ZMat(o.zmatrix(geoInit))
    ensures r.geo == o.optResult(r.job.input)
    ensures r.inf.Some? <==> r.geo.Some? && o.components(r.geo.value) >= 2
  {
    var geom := if o.components(geoInit) < 2 then ZMat(o.zmatrix(geoInit)) else Cart(geoInit);
    match o.optResult(geom)
    case None => OptOutcome(None, None, Optimization(geom))
    case Some(geo) =>
      OptOutcome(Some(geo), if o.components(geo) >= 2 then Some(o.optEnergy(geom)) else None, Optimization(geom))
  }

  // ---------------------------------------------------------------------
  // run_check_imaginary

  /** `(imag, geo, disp_xyzs, hess)` and the jobs started. */
  datatype Check = Check(imag: bool, geo: Geom, disp: Disp, hess: Hess, jobs: seq<Job>)

  function ProjectedImag(p: ProjOut): real
  {
    if p.hrprojExists then p.hrprojImag else p.rtprojImag
  }

  function CheckImaginary(geo: Geom, o: Oracles): (c: Check)
    ensures o.isAtom(geo) ==> c == Check(false, geo, [], EmptyHess, [])
    ensures !o.isAtom(geo) ==> c.jobs == [Hessian(geo)]
    ensures c.geo == geo
    ensures c.imag <==>
      && !o.isAtom(geo) && o.hessResult(geo).Some? && |o.hessResult(geo).value| > 0
      && ProjectedImag(o.projector(geo, o.hessResult(geo).value)) != 0.0
    ensures c.imag ==> c.disp == o.normalMode(geo, c.hess) && c.hess == o.hessResult(geo).value
    ensures !c.imag ==> c.disp == []
  {
    if o.isAtom(geo) then Check(false, geo, [], EmptyHess, [])
    else
      match o.hessResult(geo)
      case None => Check(false, geo, [], EmptyHess, [Hessian(geo)])
      case Some(hess) =>
        if |hess| > 0 && ProjectedImag(o.projector(geo, hess)) != 0.0
        then Check(true, geo, o.normalMode(geo, hess), hess, [Hessian(geo)])
        else Check(false, geo, [], hess, [Hessian(geo)])
  }

  // ---------------------------------------------------------------------
  // run_kickoff_saddle

  /** `disp_len`: the kickoff size in bohr, negated for a backward kickoff. */
  function KickoffLength(kickoffSize: real, backward: bool): (d: real)
    ensures backward ==> d == -(kickoffSize * Ang2Bohr)
    ensures !backward ==> d == kickoffSize * Ang2Bohr
  {
    var d := kickoffSize * Ang2Bohr;
    if backward then -d else d
  }

  /** One displacement vector scaled by `d`. */
  function ScaleVector(v: (real, real, real), d: real): (real, real, real)
  {
    (v.0 * d, v.1 * d, v.2 * d)
  }

  /** `numpy.multiply(disp_xyzs, disp_len)` */
  function Scale(disp: Disp, d: real): (r: Disp)
    ensures |r| == |disp|
    ensures forall i :: 0 <= i < |disp| ==> r[i] == ScaleVector(disp[i], d)
  {
    if |disp| == 0 then []
    else
      var rest := Scale(disp[1..], d);
      var r := [ScaleVector(disp[0], d)] + rest;
      assert forall i :: 1 <= i < |disp| ==> r[i] == rest[i - 1] && disp[1..][i - 1] == disp[i];
      r
  }

  /** The re-optimised geometry, or the displaced one when the job gave
      nothing, and the job started. */
  function KickoffSaddle(geo: Geom, disp: Disp, kickoffSize: real, backward: bool, optCart: bool,
                         o: Oracles): (Geom, Job)
  {
    var displaced := o.displaced(geo, Scale(disp, KickoffLength(kickoffSize, backward)));
    var geom := if optCart then Cart(displaced) else ZMat(o.zmatrix(displaced));
    match o.optResult(geom)
    case None => (displaced, Optimization(geom))
    case Some(g) => (g, Optimization(geom))
  }

  /** Kicking backward displaces along the opposite vector by the same
      length, and a failed re-optimisation keeps the displaced geometry. */
  lemma KickoffDirection(geo: Geom, disp: Disp, kickoffSize: real, optCart: bool, o: Oracles)
    ensures KickoffLength(kickoffSize, true) == -KickoffLength(kickoffSize, false)
    ensures var (g, job) := KickoffSaddle(geo, disp, kickoffSize, false, optCart, o);
      o.optResult(job.input).None? ==> g == o.displaced(geo, Scale(disp, kickoffSize * Ang2Bohr))
  {
  }

  // ---------------------------------------------------------------------
  // remove_imag

  /** The loop state: the last check, the kickoffs done and the jobs so far. */
  datatype Loop = Loop(check: Check, kicks: nat, jobs: seq<Job>)

  const MaxKickoffs: nat := 5

  /** One pass of the loop body: kickoff, hessian removal, re-check. */
  function Round(st: Loop, kickoffSize: real, backward: bool, o: Oracles): Loop
  {
    var (geo, job) := KickoffSaddle(st.check.geo, st.check.disp, kickoffSize, backward, true, o);
    var c := CheckImaginary(geo, o);
    Loop(c, st.kicks + 1, st.jobs + [job, RemoveHessian] + c.jobs)
  }

  /** The loop run to its end from a state. */
  function Iterate(st: Loop, kickoffSize: real, backward: bool, o: Oracles): Loop
    decreases MaxKickoffs - st.kicks
  {
    if st.check.imag && st.kicks < MaxKickoffs then Iterate(Round(st, kickoffSize, backward, o), kickoffSize, backward, o)
    else st
  }

  function RemoveImagSpec(geo: Geom, kickoffSize: real, backward: bool, o: Oracles): Loop
  {
    var c := CheckImaginary(geo, o);
    Iterate(Loop(c, 0, c.jobs), kickoffSize, backward, o)
  }

  /** `remove_imag`: returns `(geo, hess)`, and also the number of kickoffs
      and the jobs started. */
  method RemoveImag(geo0: Geom, kickoffSize: real, backward: bool, o: Oracles)
    returns (geo: Geom, hess: Hess, kicks: nat, jobs: seq<Job>)
    ensures var st := RemoveImagSpec(geo0, kickoffSize, backward, o);
      geo == st.check.geo && hess == st.check.hess && kicks == st.kicks && jobs == st.jobs
  {
    var c := CheckImaginary(geo0, o);
    var imag, disp := c.imag, c.disp;
    geo, hess, jobs := c.geo, c.hess, c.jobs;
    var chkIdx := 0;
    while imag && chkIdx < MaxKickoffs
      invariant chkIdx <= MaxKickoffs
      invariant Iterate(Loop(Check(imag, geo, disp, hess, c.jobs), chkIdx, jobs), kickoffSize, backward, o)
             == RemoveImagSpec(geo0, kickoffSize, backward, o)
      decreases MaxKickoffs - chkIdx
    {
      ghost var st := Loop(Check(imag, geo, disp, hess, c.jobs), chkIdx, jobs);
      chkIdx := chkIdx + 1;
      var (kicked, job) := KickoffSaddle(geo, disp, kickoffSize, backward, true, o);
      jobs := jobs + [job, RemoveHessian];
      geo := kicked;
      c := CheckImaginary(geo, o);
      imag, geo, disp, hess := c.imag, c.geo, c.disp, c.hess;
      jobs := jobs + c.jobs;
      assert Loop(Check(imag, geo, disp, hess, c.jobs), chkIdx, jobs) == Round(st, kickoffSize, backward, o);
    }
    kicks := chkIdx;
  }

  function CountRemovals(jobs: seq<Job>): nat
  {
    if |jobs| == 0 then 0 else CountRemovals(jobs[..|jobs| - 1]) + (if jobs[|jobs| - 1] == RemoveHessian then 1 else 0)
  }

  lemma {:induction false} CountRemovalsAppend(a: seq<Job>, b: seq<Job>)
    ensures CountRemovals(a + b) == CountRemovals(a) + CountRemovals(b)
  {
    if |b| > 0 {
      assert (a + b)[..|a + b| - 1] == a + b[..|b| - 1];
      CountRemovalsAppend(a, b[..|b| - 1]);
    } else {
      assert a + b == a;
    }
  }

  /** A check removes no Hessian. */
  lemma CheckRemovesNothing(geo: Geom, o: Oracles)
    ensures CountRemovals(CheckImaginary(geo, o).jobs) == 0
  {
  }

  /** From a state, the loop ends after at most five kickoffs in all, ends
      early only on a check without imaginary mode, removes one Hessian per
      kickoff, and does nothing when the last check found no imaginary mode. */
  lemma {:induction false} IterateFacts(st: Loop, kickoffSize: real, backward: bool, o: Oracles)
    requires st.kicks <= MaxKickoffs
    decreases MaxKickoffs - st.kicks
    ensures var st' := Iterate(st, kickoffSize, backward, o);
      && st.kicks <= st'.kicks <= MaxKickoffs
      && (st'.kicks < MaxKickoffs ==> !st'.check.imag)
      && CountRemovals(st'.jobs) == CountRemovals(st.jobs) + (st'.kicks - st.kicks)
      && (!st.check.imag ==> st' == st)
  {
    if st.check.imag && st.kicks < MaxKickoffs {
      var st1 := Round(st, kickoffSize, backward, o);
      IterateFacts(st1, kickoffSize, backward, o);
      var (geo, job) := KickoffSaddle(st.check.geo, st.check.disp, kickoffSize, backward, true, o);
      var c := CheckImaginary(geo, o);
      CheckRemovesNothing(geo, o);
      CountRemovalsAppend(st.jobs, [job, RemoveHessian]);
      CountRemovalsAppend(st.jobs + [job, RemoveHessian], c.jobs);
      assert CountRemovals([job, RemoveHessian]) == 1 by {
        assert [job, RemoveHessian][..1] == [job];
        assert [job][..0] == [];
      }
    }
  }

  /** `remove_imag` kicks off at most five times; not at all when the first
      check finds no imaginary mode; stops at the first check without one;
      and removes the Hessian job once per kickoff, before the re-check. */
  lemma RemoveImagBounded(geo: Geom, kickoffSize: real, backward: bool, o: Oracles)
    ensures var st := RemoveImagSpec(geo, kickoffSize, backward, o);
      && st.kicks <= MaxKickoffs
      && (!CheckImaginary(geo, o).imag ==> st.kicks == 0 && st.check.geo == geo && st.jobs == CheckImaginary(geo, o).jobs)
      && (st.kicks < MaxKickoffs ==> !st.check.imag)
      && CountRemovals(st.jobs) == st.kicks
  {
    var c := CheckImaginary(geo, o);
    CheckRemovesNothing(geo, o);
    IterateFacts(Loop(c, 0, c.jobs), kickoffSize, backward, o);
  }
}
