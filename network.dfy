/** The partition-function network assembler of scripts/ktp.py
    (`make_channel_pfs`): one reaction channel is folded into the label table
    `idx_dct` and the well, bimolecular and transition-state blocks of the
    master-equation input.

    The text the writers (`mess_io.writer.*`, `moldr.pf.*`) produce is not
    modelled; each piece appended to a block is a `Block` record naming the
    label, the species and the energy handed to the writer. */
module Network {
  import opened Wrappers
  import opened Text
  import opened Dict

  /** The tunnelling string handed to `mess_io.writer.ts_sadpt`. */
  datatype Tunnel = NoTunnel | Eckart(imagFreq: real, reacBarrier: real, prodBarrier: real)

  /** The partition-function data of a saddle-point block: a species block
      (`species_data[tsname]`) or a phase-space-theory block (`pst_block`). */
  datatype SadptData = SpeciesBlock(name: string) | PstBlock(first: string, second: string)

  /** One piece appended to a block of the master-equation input. */
  datatype Block =
    | Well(name: string, species: string, energy: real)
    | Bimolecular(name: string, first: string, second: string, energy: real)
    | FakeWell(name: string, first: string, second: string, energy: real)
    | Sadpt(name: string, from: string, to: string, data: SadptData, energy: real, tunnel: Tunnel)
    | VtstNoSaddle(name: string, from: string, to: string, energy: real, zpe: real)

  /** The exceptions the function can raise. */
  datatype ChannelError =
    | IndexError                 // a species list shorter than the code indexes
    | KeyError(key: string)      // a table lookup of an absent key
    | UnboundLocal(name: string) // a local bound only on the creating path

  /** One channel: `tsname = 'ts_<tsIndex>'`, `rxn['reacs']`, `rxn['prods']`,
      `spc_dct[tsname]['class']` and the optional `spc_dct[tsname]['imag_freq']`. */
  datatype Channel = Channel(
    tsIndex: nat, reacs: seq<string>, prods: seq<string>, tsClass: string, imagFreq: Option<real>)

  /** Per-species data read from `spc_dct`: the energy
      `spc_energy(ene, zpe) * EH2KCAL` in kcal/mol, and the zero-point energy. */
  datatype Env = Env(energy: string -> real, zpe: string -> real)

  /** The three text blocks, in the order of the list they travel in. */
  type Strs = (seq<Block>, seq<Block>, seq<Block>)

  /** What a successful call returns: `[well_str, bim_str, ts_str]` and the
      ground-energy baseline. */
  datatype ChannelOut = ChannelOut(strs: Strs, firstGround: real)

  /** The local state of the function between its steps; `fault` holds the
      exception that ended it, after which nothing more happens. */
  datatype Frame = Frame(
    pidx: nat, widx: nat, fidx: nat, firstGround: real,
    wells: seq<Block>, bims: seq<Block>, tss: seq<Block>, fault: Option<ChannelError>)

  type Table = Dict<string, string>

  const RadicalRadical := "radical radical"
  const Abstraction := "abstraction"

  function TsName(k: nat): string
  {
    "ts_" + NatToString(k)
  }

  /** `'B' + str(int(tsname.replace('ts_', '')) + 1)` */
  function TsLabel(k: nat): string
  {
    "B" + NatToString(k + 1)
  }

  /** `'+'.join(names)` */
  function ComboKey(names: seq<string>): string
  {
    Join(names, "+")
  }

  /** Which counter a stored label advances: the tests on `'P'`, `'W'`
      and `'F'` are tried in that order. */
  datatype Kind = PKind | WKind | FKind | NoKind

  function LabelKind(v: string): Kind
  {
    if 'P' in v then PKind else if 'W' in v then WKind else if 'F' in v then FKind else NoKind
  }

  /** How many of `vals` advance the counter of `kind`. */
  function Count(vals: seq<string>, kind: Kind): nat
  {
    if |vals| == 0 then 0
    else Count(vals[..|vals| - 1], kind) + (if LabelKind(vals[|vals| - 1]) == kind then 1 else 0)
  }

  /** The summed energy of one side of the channel. */
  function SideEnergy(names: seq<string>, env: Env): real
  {
    if |names| == 0 then 0.0 else SideEnergy(names[..|names| - 1], env) + env.energy(names[|names| - 1])
  }

  /** An Eckart barrier height as passed on: a negative one becomes 0.1. */
  function Clamp(barrier: real): (b: real)
    ensures b >= 0.0
    ensures barrier >= 0.0 ==> b == barrier
    ensures barrier < 0.0 ==> b == 0.1
  {
    if barrier < 0.0 then 0.1 else barrier
  }

  function Abs(x: real): real
  {
    if x < 0.0 then -x else x
  }

  /** The frame at entry: counters one above the number of stored labels of
      each kind, blocks unpacked from `strs = (bim_str, well_str, ts_str)`. */
  function Start(idx: Table, strs: Strs, firstGround: real): Frame
  {
    var vals := Values(idx);
    Frame(1 + Count(vals, PKind), 1 + Count(vals, WKind), 1 + Count(vals, FKind), firstGround,
          strs.1, strs.0, strs.2, None)
  }

  /** The baseline after a new reactant entry: set when still falsy. */
  function NewGround(firstGround: real, ene: real): real
  {
    if firstGround == 0.0 then ene else firstGround
  }

  /** Label resolution for the reactant combination. */
  function ReactantSide(idx: Table, fr: Frame, reacs: seq<string>, ene: real): (Table, Frame, string)
  {
    var key1 := ComboKey(reacs);
    var key2 := ComboKey(ReverseSeq(reacs));
    if Has(idx, key1) then (idx, fr, Get(idx, key1))
    else if Has(idx, key2) then (idx, fr, Get(idx, key2))
    else if |reacs| > 1 then
      var lbl := "P" + NatToString(fr.pidx);
      var ground := NewGround(fr.firstGround, ene);
      (Put(idx, key1, lbl),
       fr.(pidx := fr.pidx + 1, firstGround := ground,
           bims := fr.bims + [Bimolecular(lbl, reacs[0], reacs[1], ene - ground)]),
       lbl)
    else if |reacs| == 0 then (idx, fr.(fault := Some(IndexError)), "")
    else
      var lbl := "W" + NatToString(fr.widx);
      var ground := NewGround(fr.firstGround, ene);
      (Put(idx, key1, lbl),
       fr.(widx := fr.widx + 1, firstGround := ground,
           wells := fr.wells + [Well(lbl, reacs[0], ene - ground)]),
       lbl)
  }

  /** Label resolution for the product combination: as for the reactants,
      but no counter is advanced and the baseline is left alone. */
  function ProductSide(idx: Table, fr: Frame, prods: seq<string>, ene: real): (Table, Frame, string)
  {
    var key1 := ComboKey(prods);
    var key2 := ComboKey(ReverseSeq(prods));
    if Has(idx, key1) then (idx, fr, Get(idx, key1))
    else if Has(idx, key2) then (idx, fr, Get(idx, key2))
    else if |prods| > 1 then
      var lbl := "P" + NatToString(fr.pidx);
      (Put(idx, key1, lbl),
       fr.(bims := fr.bims + [Bimolecular(lbl, prods[0], prods[1], ene - fr.firstGround)]),
       lbl)
    else if |prods| == 0 then (idx, fr.(fault := Some(IndexError)), "")
    else
      var lbl := "W" + NatToString(fr.widx);
      (Put(idx, key1, lbl),
       fr.(wells := fr.wells + [Well(lbl, prods[0], ene - fr.firstGround)]),
       lbl)
  }

  /** A fake van der Waals well for one side of an abstraction, with the
      phase-space-theory block linking it to that side's label. `prefix`
      is `"FRB"` or `"FPB"`; `pstBlockName` is the local that the reuse path
      reads without having bound it. */
  function FakeWellSide(
    idx: Table, fr: Frame, names: seq<string>, ene: real, link: string,
    prefix: string, k: nat, pstBlockName: string): (Table, Frame, string)
  {
    var key1 := "F" + ComboKey(names);
    var key2 := "F" + ComboKey(ReverseSeq(names));
    if Has(idx, key1) || Has(idx, key2) then
      var key := if Has(idx, key1) then key1 else key2;
      var pstKey := Replace(key, 'F', prefix);
      if !Has(idx, pstKey) then (idx, fr.(fault := Some(KeyError(pstKey))), "")
      else (idx, fr.(fault := Some(UnboundLocal(pstBlockName))), "")
    else if |names| < 2 then (idx, fr.(fault := Some(IndexError)), "")
    else
      var lbl := "F" + NatToString(fr.fidx);
      var pstLabel := prefix + NatToString(k + 1);
      (Put(Put(idx, key1, lbl), Replace(key1, 'F', prefix), pstLabel),
       fr.(fidx := fr.fidx + 1,
           wells := fr.wells + [FakeWell(lbl, names[0], names[1], ene - 1.0 - fr.firstGround)],
           tss := fr.tss + [Sadpt(pstLabel, link, lbl, PstBlock(names[0], names[1]),
                                  ene - fr.firstGround, NoTunnel)]),
       lbl)
  }

  /** The barrierless block of a radical-radical channel. */
  function RadicalTs(fr: Frame, ch: Channel, env: Env, reacLabel: string, prodLabel: string,
                     reacEne: real, prodEne: real): Frame
  {
    if 'P' in reacLabel then
      if |ch.reacs| < 2 then fr.(fault := Some(IndexError))
      else fr.(tss := fr.tss + [VtstNoSaddle(TsLabel(ch.tsIndex), reacLabel, prodLabel,
                                             reacEne - fr.firstGround,
                                             env.zpe(ch.reacs[0]) + env.zpe(ch.reacs[1]))])
    else
      if |ch.prods| < 2 then fr.(fault := Some(IndexError))
      else fr.(tss := fr.tss + [VtstNoSaddle(TsLabel(ch.tsIndex), reacLabel, prodLabel,
                                             prodEne - fr.firstGround,
                                             env.zpe(ch.prods[0]) + env.zpe(ch.prods[1]))])
  }

  /** The imaginary frequency handed to the Eckart model: its absolute value,
      or 0 when the transition state has none. */
  function ImagFreq(ch: Channel): real
  {
    match ch.imagFreq
    case None => 0.0
    case Some(f) => Abs(f)
  }

  /** The blocks of an abstraction: two fake wells with their PST blocks,
      then the real saddle point between the fake wells, its barriers
      measured from the fake-well energies `side energy - 1.0`. */
  function AbstractionTs(idx: Table, fr: Frame, ch: Channel, env: Env, reacLabel: string,
                         prodLabel: string, reacEne: real, prodEne: real): (Table, Frame)
  {
    var k := ch.tsIndex;
    var (idx1, fr1, fakeR) := FakeWellSide(idx, fr, ch.reacs, reacEne, reacLabel, "FRB", k, "pst_r_ts_str");
    if fr1.fault.Some? then (idx1, fr1)
    else
      var (idx2, fr2, fakeP) := FakeWellSide(idx1, fr1, ch.prods, prodEne, prodLabel, "FPB", k, "pst_p_ts_str");
      if fr2.fault.Some? then (idx2, fr2)
      else (idx2, AbstractionSaddle(fr2, ch, env, fakeR, fakeP, reacEne, prodEne))
  }

  /** The real saddle point between the two fake wells, its barriers
      measured from the fake-well energies `side energy - 1.0`. */
  function AbstractionSaddle(fr: Frame, ch: Channel, env: Env, fakeR: string, fakeP: string,
                             reacEne: real, prodEne: real): Frame
  {
    var k := ch.tsIndex;
    var tsEne := env.energy(TsName(k));
    fr.(tss := fr.tss + [Sadpt(TsLabel(k), fakeR, fakeP, SpeciesBlock(TsName(k)),
                               tsEne - fr.firstGround,
                               Eckart(ImagFreq(ch), Clamp(tsEne - (reacEne - 1.0)), Clamp(tsEne - (prodEne - 1.0))))])
  }

  /** The saddle point of a tight transition state, joining the reactant
      and product labels directly. */
  function TightTs(fr: Frame, ch: Channel, env: Env, reacLabel: string, prodLabel: string,
                   reacEne: real, prodEne: real): Frame
  {
    var k := ch.tsIndex;
    var tsEne := env.energy(TsName(k));
    fr.(tss := fr.tss + [Sadpt(TsLabel(k), reacLabel, prodLabel, SpeciesBlock(TsName(k)),
                               tsEne - fr.firstGround,
                               Eckart(ImagFreq(ch), Clamp(tsEne - reacEne), Clamp(tsEne - prodEne)))])
  }

  /** The transition-state part of the channel, by classification. */
  function TransitionStates(idx: Table, fr: Frame, ch: Channel, env: Env, reacLabel: string,
                            prodLabel: string, reacEne: real, prodEne: real): (Table, Frame)
  {
    if Contains(ch.tsClass, RadicalRadical) then
      (idx, RadicalTs(fr, ch, env, reacLabel, prodLabel, reacEne, prodEne))
    else if Contains(ch.tsClass, Abstraction) then
      AbstractionTs(idx, fr, ch, env, reacLabel, prodLabel, reacEne, prodEne)
    else
      (idx, TightTs(fr, ch, env, reacLabel, prodLabel, reacEne, prodEne))
  }

  /** The whole call: the table it leaves behind (also when it raises) and
      what it returns. */
  function ChannelPfs(idx: Table, ch: Channel, env: Env, strs: Strs, firstGround: real)
    : (Table, Result<ChannelOut, ChannelError>)
  {
    var reacEne := SideEnergy(ch.reacs, env);
    var prodEne := SideEnergy(ch.prods, env);
    var (idx1, fr1, reacLabel) := ReactantSide(idx, Start(idx, strs, firstGround), ch.reacs, reacEne);
    if fr1.fault.Some? then (idx1, Err(fr1.fault.value))
    else
      var (idx2, fr2, prodLabel) := ProductSide(idx1, fr1, ch.prods, prodEne);
      if fr2.fault.Some? then (idx2, Err(fr2.fault.value))
      else
        var (idx3, fr3) := TransitionStates(idx2, fr2, ch, env, reacLabel, prodLabel, reacEne, prodEne);
        if fr3.fault.Some? then (idx3, Err(fr3.fault.value))
        else (idx3, Ok(ChannelOut((fr3.wells, fr3.bims, fr3.tss), fr3.firstGround)))
  }

  /** `idx_dct`, which the function updates in place. */
  class IndexTable {
    var entries: Table

    constructor (entries0: Table)
      ensures entries == entries0
    {
      entries := entries0;
    }

    /** `idx_dct[key] = value` */
    method Set(key: string, value: string)
      modifies this
      ensures entries == Put(old(entries), key, value)
    {
      entries := Put(entries, key, value);
    }
  }

  /** The loop over `idx_dct.values()` that finds the next free indices. */
  method CountLabels(table: IndexTable) returns (pidx: nat, widx: nat, fidx: nat)
    ensures pidx == 1 + Count(Values(table.entries), PKind)
    ensures widx == 1 + Count(Values(table.entries), WKind)
    ensures fidx == 1 + Count(Values(table.entries), FKind)
  {
    var vals := Values(table.entries);
    pidx, widx, fidx := 1, 1, 1;
    for i := 0 to |vals|
      invariant pidx == 1 + Count(vals[..i], PKind)
      invariant widx == 1 + Count(vals[..i], WKind)
      invariant fidx == 1 + Count(vals[..i], FKind)
    {
      assert vals[..i + 1][..i] == vals[..i];
      var val := vals[i];
      if 'P' in val {
        pidx := pidx + 1;
      } else if 'W' in val {
        widx := widx + 1;
      } else if 'F' in val {
        fidx := fidx + 1;
      }
    }
    assert vals[..|vals|] == vals;
  }

  /** The loop summing the energies of one side. */
  method SumEnergy(names: seq<string>, env: Env) returns (ene: real)
    ensures ene == SideEnergy(names, env)
  {
    ene := 0.0;
    for i := 0 to |names|
      invariant ene == SideEnergy(names[..i], env)
    {
      assert names[..i + 1][..i] == names[..i];
      ene := ene + env.energy(names[i]);
    }
    assert names[..|names|] == names;
  }

  method ResolveReactants(table: IndexTable, fr: Frame, reacs: seq<string>, ene: real)
    returns (fr': Frame, reacLabel: string)
    modifies table
    ensures (table.entries, fr', reacLabel) == ReactantSide(old(table.entries), fr, reacs, ene)
  {
    fr' := fr;
    reacLabel := "";
    var key1 := ComboKey(reacs);
    var key2 := ComboKey(ReverseSeq(reacs));
    if !Has(table.entries, key1) {
      if Has(table.entries, key2) {
        key1 := key2;
      } else if |reacs| > 1 {
        reacLabel := "P" + NatToString(fr.pidx);
        var ground := fr.firstGround;
        if ground == 0.0 {
          ground := ene;
        }
        fr' := fr.(pidx := fr.pidx + 1, firstGround := ground,
                   bims := fr.bims + [Bimolecular(reacLabel, reacs[0], reacs[1], ene - ground)]);
        table.Set(key1, reacLabel);
      } else if |reacs| == 0 {
        fr' := fr.(fault := Some(IndexError));
        return;
      } else {
        var ground := fr.firstGround;
        if ground == 0.0 {
          ground := ene;
        }
        reacLabel := "W" + NatToString(fr.widx);
        fr' := fr.(widx := fr.widx + 1, firstGround := ground,
                   wells := fr.wells + [Well(reacLabel, reacs[0], ene - ground)]);
        table.Set(key1, reacLabel);
      }
    }
    if reacLabel == "" {
      reacLabel := Get(table.entries, key1);
    }
  }

  method ResolveProducts(table: IndexTable, fr: Frame, prods: seq<string>, ene: real)
    returns (fr': Frame, prodLabel: string)
    modifies table
    ensures (table.entries, fr', prodLabel) == ProductSide(old(table.entries), fr, prods, ene)
  {
    fr' := fr;
    prodLabel := "";
    var key1 := ComboKey(prods);
    var key2 := ComboKey(ReverseSeq(prods));
    if !Has(table.entries, key1) {
      if Has(table.entries, key2) {
        key1 := key2;
      } else if |prods| > 1 {
        prodLabel := "P" + NatToString(fr.pidx);
        fr' := fr.(bims := fr.bims + [Bimolecular(prodLabel, prods[0], prods[1], ene - fr.firstGround)]);
        table.Set(key1, prodLabel);
      } else if |prods| == 0 {
        fr' := fr.(fault := Some(IndexError));
        return;
      } else {
        prodLabel := "W" + NatToString(fr.widx);
        fr' := fr.(wells := fr.wells + [Well(prodLabel, prods[0], ene - fr.firstGround)]);
        table.Set(key1, prodLabel);
      }
    }
    if prodLabel == "" {
      prodLabel := Get(table.entries, key1);
    }
  }

  method AddFakeWell(
    table: IndexTable, fr: Frame, names: seq<string>, ene: real, link: string,
    prefix: string, k: nat, pstBlockName: string)
    returns (fr': Frame, fakeLabel: string)
    modifies table
    ensures (table.entries, fr', fakeLabel)
         == FakeWellSide(old(table.entries), fr, names, ene, link, prefix, k, pstBlockName)
  {
    fr' := fr;
    fakeLabel := "";
    var key1 := "F" + ComboKey(names);
    var key2 := "F" + ComboKey(ReverseSeq(names));
    if !Has(table.entries, key1) {
      if Has(table.entries, key2) {
        key1 := key2;
      } else if |names| < 2 {
        fr' := fr.(fault := Some(IndexError));
        return;
      } else {
        fakeLabel := "F" + NatToString(fr.fidx);
        var vdwEne := ene - 1.0;
        fr' := fr.(fidx := fr.fidx + 1,
                   wells := fr.wells + [FakeWell(fakeLabel, names[0], names[1], vdwEne - fr.firstGround)]);
        table.Set(key1, fakeLabel);
        var pstLabel := prefix + NatToString(k + 1);
        table.Set(Replace(key1, 'F', prefix), pstLabel);
        fr' := fr'.(tss := fr'.tss + [Sadpt(pstLabel, link, fakeLabel, PstBlock(names[0], names[1]),
                                            ene - fr.firstGround, NoTunnel)]);
        return;
      }
    }
    // the reuse path: the labels are looked up, then the unbound block is read
    fakeLabel := Get(table.entries, key1);
    var pstKey := Replace(key1, 'F', prefix);
    if !Has(table.entries, pstKey) {
      fr', fakeLabel := fr.(fault := Some(KeyError(pstKey))), "";
    } else {
      fr', fakeLabel := fr.(fault := Some(UnboundLocal(pstBlockName))), "";
    }
  }

  /** The vtst block of a radical-radical channel. */
  method AddRadicalTs(fr: Frame, ch: Channel, env: Env, reacLabel: string, prodLabel: string,
                      reacEne: real, prodEne: real)
    returns (fr': Frame)
    ensures fr' == RadicalTs(fr, ch, env, reacLabel, prodLabel, reacEne, prodEne)
  {
    var spcEne, spcZpe;
    if 'P' in reacLabel {
      if |ch.reacs| < 2 {
        return fr.(fault := Some(IndexError));
      }
      spcEne := reacEne - fr.firstGround;
      spcZpe := env.zpe(ch.reacs[0]) + env.zpe(ch.reacs[1]);
    } else {
      if |ch.prods| < 2 {
        return fr.(fault := Some(IndexError));
      }
      spcEne := prodEne - fr.firstGround;
      spcZpe := env.zpe(ch.prods[0]) + env.zpe(ch.prods[1]);
    }
    fr' := fr.(tss := fr.tss + [VtstNoSaddle(TsLabel(ch.tsIndex), reacLabel, prodLabel, spcEne, spcZpe)]);
  }

  /** The imaginary frequency as the function reads it. */
  method ReadImagFreq(ch: Channel) returns (imagFreq: real)
    ensures imagFreq == ImagFreq(ch)
  {
    imagFreq := 0.0;
    if ch.imagFreq.Some? {
      imagFreq := Abs(ch.imagFreq.value);
    }
  }

  /** The fake wells, PST blocks and saddle point of an abstraction. */
  method AddAbstractionTs(table: IndexTable, fr: Frame, ch: Channel, env: Env, reacLabel: string,
                          prodLabel: string, reacEne: real, prodEne: real)
    returns (fr': Frame)
    modifies table
    ensures (table.entries, fr')
         == AbstractionTs(old(table.entries), fr, ch, env, reacLabel, prodLabel, reacEne, prodEne)
  {
    var fakeR, fakeP;
    fr', fakeR := AddFakeWell(table, fr, ch.reacs, reacEne, reacLabel, "FRB", ch.tsIndex, "pst_r_ts_str");
    if fr'.fault.Some? {
      return;
    }
    fr', fakeP := AddFakeWell(table, fr', ch.prods, prodEne, prodLabel, "FPB", ch.tsIndex, "pst_p_ts_str");
    if fr'.fault.Some? {
      return;
    }
    fr' := AddAbstractionSaddle(fr', ch, env, fakeR, fakeP, reacEne, prodEne);
  }

  method AddAbstractionSaddle(fr: Frame, ch: Channel, env: Env, fakeR: string, fakeP: string,
                              reacEne: real, prodEne: real)
    returns (fr': Frame)
    ensures fr' == AbstractionSaddle(fr, ch, env, fakeR, fakeP, reacEne, prodEne)
  {
    var tsEne := env.energy(TsName(ch.tsIndex));
    var imagFreq := ReadImagFreq(ch);
    var vdwrEne, vdwpEne := reacEne - 1.0, prodEne - 1.0;
    var tsReacBarr, tsProdBarr := tsEne - vdwrEne, tsEne - vdwpEne;
    if tsReacBarr < 0.0 {
      tsReacBarr := 0.1;
    }
    if tsProdBarr < 0.0 {
      tsProdBarr := 0.1;
    }
    fr' := fr.(tss := fr.tss + [Sadpt(TsLabel(ch.tsIndex), fakeR, fakeP, SpeciesBlock(TsName(ch.tsIndex)),
                                      tsEne - fr.firstGround, Eckart(imagFreq, tsReacBarr, tsProdBarr))]);
  }

  /** The saddle point of a tight transition state. */
  method AddTightTs(fr: Frame, ch: Channel, env: Env, reacLabel: string, prodLabel: string,
                    reacEne: real, prodEne: real)
    returns (fr': Frame)
    ensures fr' == TightTs(fr, ch, env, reacLabel, prodLabel, reacEne, prodEne)
  {
    var tsEne := env.energy(TsName(ch.tsIndex));
    var imagFreq := ReadImagFreq(ch);
    var tsReacBarr, tsProdBarr := tsEne - reacEne, tsEne - prodEne;
    if tsReacBarr < 0.0 {
      tsReacBarr := 0.1;
    }
    if tsProdBarr < 0.0 {
      tsProdBarr := 0.1;
    }
    fr' := fr.(tss := fr.tss + [Sadpt(TsLabel(ch.tsIndex), reacLabel, prodLabel, SpeciesBlock(TsName(ch.tsIndex)),
                                      tsEne - fr.firstGround, Eckart(imagFreq, tsReacBarr, tsProdBarr))]);
  }

  method AddTransitionStates(table: IndexTable, fr: Frame, ch: Channel, env: Env, reacLabel: string,
                             prodLabel: string, reacEne: real, prodEne: real)
    returns (fr': Frame)
    modifies table
    ensures (table.entries, fr')
         == TransitionStates(old(table.entries), fr, ch, env, reacLabel, prodLabel, reacEne, prodEne)
  {
    if Contains(ch.tsClass, RadicalRadical) {
      fr' := AddRadicalTs(fr, ch, env, reacLabel, prodLabel, reacEne, prodEne);
    } else if Contains(ch.tsClass, Abstraction) {
      fr' := AddAbstractionTs(table, fr, ch, env, reacLabel, prodLabel, reacEne, prodEne);
    } else {
      fr' := AddTightTs(fr, ch, env, reacLabel, prodLabel, reacEne, prodEne);
    }
  }

  /** `make_channel_pfs`: updates the table in place and returns the three
      blocks and the baseline, or the exception it raises. */
  method MakeChannelPfs(table: IndexTable, ch: Channel, env: Env, strs: Strs, firstGround: real)
    returns (res: Result<ChannelOut, ChannelError>)
    modifies table
    ensures (table.entries, res) == ChannelPfs(old(table.entries), ch, env, strs, firstGround)
  {
    ghost var idx0 := table.entries;
    var bimStr, wellStr, tsStr := strs.0, strs.1, strs.2;
    var pidx, widx, fidx := CountLabels(table);
    var fr := Frame(pidx, widx, fidx, firstGround, wellStr, bimStr, tsStr, None);
    assert fr == Start(idx0, strs, firstGround);
    var reacEne := SumEnergy(ch.reacs, env);
    var prodEne := SumEnergy(ch.prods, env);
    var reacLabel;
    fr, reacLabel := ResolveReactants(table, fr, ch.reacs, reacEne);
    ghost var idx1 := table.entries;
    if fr.fault.Some? {
      return Err(fr.fault.value);
    }
    var prodLabel;
    ghost var fr1 := fr;
    fr, prodLabel := ResolveProducts(table, fr, ch.prods, prodEne);
    ghost var idx2 := table.entries;
    assert (idx2, fr, prodLabel) == ProductSide(idx1, fr1, ch.prods, prodEne);
    if fr.fault.Some? {
      return Err(fr.fault.value);
    }
    ghost var fr2 := fr;
    fr := AddTransitionStates(table, fr, ch, env, reacLabel, prodLabel, reacEne, prodEne);
    assert (table.entries, fr) == TransitionStates(idx2, fr2, ch, env, reacLabel, prodLabel, reacEne, prodEne);
    if fr.fault.Some? {
      return Err(fr.fault.value);
    }
    return Ok(ChannelOut((fr.wells, fr.bims, fr.tss), fr.firstGround));
  }

  // ---------------------------------------------------------------------
  // Properties of the label table and the counters

  /** No letter occurs among the decimal digits of an index. */
  lemma DigitsHaveNoLetter(n: nat, c: char)
    requires !IsDigit(c)
    ensures c !in NatToString(n)
  {
  }

  /** The counter each kind of label advances: the counting tests run in
      order, so `FPB` labels advance the P counter and `FRB` labels the F
      counter; transition-state labels advance none. */
  lemma {:induction false} LabelKinds(n: nat)
    ensures LabelKind("P" + NatToString(n)) == PKind
    ensures LabelKind("W" + NatToString(n)) == WKind
    ensures LabelKind("F" + NatToString(n)) == FKind
    ensures LabelKind("FRB" + NatToString(n)) == FKind
    ensures LabelKind("FPB" + NatToString(n)) == PKind
    ensures LabelKind(TsLabel(n)) == NoKind
  {
    DigitsHaveNoLetter(n, 'P');
    DigitsHaveNoLetter(n, 'W');
    DigitsHaveNoLetter(n, 'F');
    DigitsHaveNoLetter(n + 1, 'P');
    DigitsHaveNoLetter(n + 1, 'W');
    DigitsHaveNoLetter(n + 1, 'F');
    assert "P" + NatToString(n) == ['P'] + NatToString(n);
    assert "W" + NatToString(n) == ['W'] + NatToString(n);
    assert "F" + NatToString(n) == ['F'] + NatToString(n);
    assert "FRB" + NatToString(n) == ['F', 'R', 'B'] + NatToString(n);
    assert "FPB" + NatToString(n) == ['F', 'P', 'B'] + NatToString(n);
    assert TsLabel(n) == ['B'] + NatToString(n + 1);
  }

  /** Storing a new label raises exactly the counter of its kind by one,
      so the next call hands out the following index. */
  lemma CountAfterNewEntry(idx: Table, key: string, value: string, kind: Kind)
    requires !Has(idx, key)
    ensures Count(Values(Put(idx, key, value)), kind)
         == Count(Values(idx), kind) + (if LabelKind(value) == kind then 1 else 0)
  {
    assert Put(idx, key, value) == idx + [(key, value)];
    ValuesAppend(idx, key, value);
    var vals := Values(idx) + [value];
    assert vals[..|vals| - 1] == Values(idx);
  }

  /** A side's combination already has a label, in listed or reversed order. */
  predicate Resolved(idx: Table, names: seq<string>)
  {
    Has(idx, ComboKey(names)) || Has(idx, ComboKey(ReverseSeq(names)))
  }

  /** The label a resolved combination has: the listed order first. */
  function StoredLabel(idx: Table, names: seq<string>): string
    requires Resolved(idx, names)
  {
    if Has(idx, ComboKey(names)) then Get(idx, ComboKey(names)) else Get(idx, ComboKey(ReverseSeq(names)))
  }

  /** A combination found in either order reuses its label and changes
      neither the table nor any block, for reactants and products alike. */
  lemma SideReuse(idx: Table, fr: Frame, names: seq<string>, ene: real)
    requires Resolved(idx, names)
    ensures ReactantSide(idx, fr, names, ene) == (idx, fr, StoredLabel(idx, names))
    ensures ProductSide(idx, fr, names, ene) == (idx, fr, StoredLabel(idx, names))
  {
  }

  /** A new reactant combination is stored under its listed order as
      `P<pidx>` when bimolecular and `W<widx>` otherwise, with one block and
      the baseline set if it was still falsy. */
  lemma ReactantSideNew(idx: Table, fr: Frame, reacs: seq<string>, ene: real)
    requires !Resolved(idx, reacs) && |reacs| >= 1
    ensures var (idx', fr', lbl) := ReactantSide(idx, fr, reacs, ene);
      && idx' == idx + [(ComboKey(reacs), lbl)]
      && fr'.fault == fr.fault
      && fr'.firstGround == NewGround(fr.firstGround, ene)
      && fr'.fidx == fr.fidx && fr'.tss == fr.tss
      && (if |reacs| > 1
          then lbl == "P" + NatToString(fr.pidx) && fr'.pidx == fr.pidx + 1 && fr'.widx == fr.widx
               && fr'.wells == fr.wells
               && fr'.bims == fr.bims + [Bimolecular(lbl, reacs[0], reacs[1], ene - fr'.firstGround)]
          else lbl == "W" + NatToString(fr.widx) && fr'.widx == fr.widx + 1 && fr'.pidx == fr.pidx
               && fr'.bims == fr.bims
               && fr'.wells == fr.wells + [Well(lbl, reacs[0], ene - fr'.firstGround)])
  {
  }

  /** A new product combination takes the current indices without advancing
      them and leaves the baseline alone. */
  lemma ProductSideNew(idx: Table, fr: Frame, prods: seq<string>, ene: real)
    requires !Resolved(idx, prods) && |prods| >= 1
    ensures var (idx', fr', lbl) := ProductSide(idx, fr, prods, ene);
      && idx' == idx + [(ComboKey(prods), lbl)]
      && fr'.fault == fr.fault
      && fr'.firstGround == fr.firstGround
      && fr'.pidx == fr.pidx && fr'.widx == fr.widx && fr'.fidx == fr.fidx && fr'.tss == fr.tss
      && (if |prods| > 1
          then lbl == "P" + NatToString(fr.pidx) && fr'.wells == fr.wells
               && fr'.bims == fr.bims + [Bimolecular(lbl, prods[0], prods[1], ene - fr.firstGround)]
          else lbl == "W" + NatToString(fr.widx) && fr'.bims == fr.bims
               && fr'.wells == fr.wells + [Well(lbl, prods[0], ene - fr.firstGround)])
  {
  }

  /** When both sides are new bimolecular combinations, the products take
      the P index right after the reactants', because the reactant side
      already advanced the counter. */
  lemma BimolecularPairIndices(idx: Table, fr: Frame, reacs: seq<string>, prods: seq<string>, re: real, pe: real)
    requires |reacs| > 1 && |prods| > 1
    requires !Resolved(idx, reacs) && !Resolved(idx, prods)
    requires ComboKey(prods) != ComboKey(reacs) && ComboKey(ReverseSeq(prods)) != ComboKey(reacs)
    ensures var (idx1, fr1, rl) := ReactantSide(idx, fr, reacs, re);
      var (idx2, fr2, pl) := ProductSide(idx1, fr1, prods, pe);
      && rl == "P" + NatToString(fr.pidx)
      && pl == "P" + NatToString(fr.pidx + 1)
      && idx2 == idx + [(ComboKey(reacs), rl), (ComboKey(prods), pl)]
  {
    var (idx1, fr1, rl) := ReactantSide(idx, fr, reacs, re);
    ReactantSideNew(idx, fr, reacs, re);
    ProductAfterReactant(idx, idx1, fr1, ComboKey(reacs), rl, prods, pe);
  }

  lemma ProductAfterReactant(idx: Table, idx1: Table, fr1: Frame, key: string, rl: string,
                             prods: seq<string>, pe: real)
    requires |prods| > 1 && !Resolved(idx, prods) && !Has(idx, key)
    requires ComboKey(prods) != key && ComboKey(ReverseSeq(prods)) != key
    requires idx1 == idx + [(key, rl)]
    ensures var (idx2, fr2, pl) := ProductSide(idx1, fr1, prods, pe);
      && pl == "P" + NatToString(fr1.pidx)
      && idx2 == idx + [(key, rl), (ComboKey(prods), pl)]
  {
    NotResolvedAfterAppend(idx, key, rl, prods);
    ProductSideNew(idx1, fr1, prods, pe);
  }

  lemma NotResolvedAfterAppend(idx: Table, key: string, v: string, names: seq<string>)
    requires !Resolved(idx, names)
    requires ComboKey(names) != key && ComboKey(ReverseSeq(names)) != key
    requires !Has(idx, key)
    ensures !Resolved(idx + [(key, v)], names)
  {
    assert Put(idx, key, v) == idx + [(key, v)];
  }

}
