/** Properties of `make_channel_pfs` across whole calls: the baseline, the
    fake wells of an abstraction, the reuse of labels and the counters the
    next call starts from. */
module NetworkProps {
  import opened Wrappers
  import opened Text
  import opened Dict
  import opened Network

  /** A new fake well takes `F<fidx>`, is stored under `"F" + key`, sits
      1.0 below the side energy, and its PST label `prefix + (k+1)` is stored
      under the fake-well key with every `F` replaced by the prefix. */
  lemma FakeWellNew(idx: Table, fr: Frame, names: seq<string>, ene: real, link: string,
                    prefix: string, k: nat, pstBlockName: string)
    requires !Has(idx, "F" + ComboKey(names)) && !Has(idx, "F" + ComboKey(ReverseSeq(names)))
    requires |names| >= 2 && |prefix| >= 2
    ensures var (idx', fr', lbl) := FakeWellSide(idx, fr, names, ene, link, prefix, k, pstBlockName);
      var key := "F" + ComboKey(names);
      var pstKey := Replace(key, 'F', prefix);
      && lbl == "F" + NatToString(fr.fidx)
      && fr'.fault == fr.fault && fr'.fidx == fr.fidx + 1
      && fr'.firstGround == fr.firstGround && fr'.bims == fr.bims
      && Has(idx', key) && Get(idx', key) == lbl
      && StartsWith(pstKey, prefix) && pstKey != key
      && Has(idx', pstKey) && Get(idx', pstKey) == prefix + NatToString(k + 1)
      && |fr'.wells| == |fr.wells| + 1 && fr'.wells[|fr.wells|].energy == ene - 1.0 - fr.firstGround
      && |fr'.tss| == |fr.tss| + 1 && fr'.tss[|fr.tss|].energy == ene - fr.firstGround
      && fr'.tss[|fr.tss|].from == link && fr'.tss[|fr.tss|].to == lbl
  {
    var key := "F" + ComboKey(names);
    assert key == ['F'] + ComboKey(names);
    ReplaceLeading('F', ComboKey(names), prefix);
    ReplaceLeadingLonger('F', ComboKey(names), prefix);
  }

  /** Reaching a fake well that already exists always raises: the PST
      label lookup fails, or the PST block and the fake-well energy were
      never bound on this path. The table is left as it was. */
  lemma FakeWellReuseFaults(idx: Table, fr: Frame, names: seq<string>, ene: real, link: string,
                            prefix: string, k: nat, pstBlockName: string)
    requires Has(idx, "F" + ComboKey(names)) || Has(idx, "F" + ComboKey(ReverseSeq(names)))
    ensures var (idx', fr', lbl) := FakeWellSide(idx, fr, names, ene, link, prefix, k, pstBlockName);
      && idx' == idx
      && (fr'.fault == Some(UnboundLocal(pstBlockName)) || fr'.fault.value.KeyError?)
  {
  }

  /** Every step of the call keeps the keys already in the table, and keeps
      the keys free of duplicates. */
  ghost predicate Grows(idx: Table, idx': Table)
  {
    && (forall key :: Has(idx, key) ==> Has(idx', key))
    && (UniqueKeys(idx) ==> UniqueKeys(idx'))
  }

  lemma SidesGrow(idx: Table, fr: Frame, names: seq<string>, ene: real)
    ensures Grows(idx, ReactantSide(idx, fr, names, ene).0)
    ensures Grows(idx, ProductSide(idx, fr, names, ene).0)
  {
  }

  lemma FakeWellGrows(idx: Table, fr: Frame, names: seq<string>, ene: real, link: string,
                      prefix: string, k: nat, pstBlockName: string)
    ensures Grows(idx, FakeWellSide(idx, fr, names, ene, link, prefix, k, pstBlockName).0)
  {
    var key1 := "F" + ComboKey(names);
    var lbl := "F" + NatToString(fr.fidx);
    var mid := Put(idx, key1, lbl);
    assert Grows(idx, mid);
    assert Grows(mid, Put(mid, Replace(key1, 'F', prefix), prefix + NatToString(k + 1)));
  }

  lemma TransitionStatesGrow(idx: Table, fr: Frame, ch: Channel, env: Env, reacLabel: string,
                             prodLabel: string, reacEne: real, prodEne: real)
    ensures Grows(idx, TransitionStates(idx, fr, ch, env, reacLabel, prodLabel, reacEne, prodEne).0)
  {
    var k := ch.tsIndex;
    var r1 := FakeWellSide(idx, fr, ch.reacs, reacEne, reacLabel, "FRB", k, "pst_r_ts_str");
    FakeWellGrows(idx, fr, ch.reacs, reacEne, reacLabel, "FRB", k, "pst_r_ts_str");
    FakeWellGrows(r1.0, r1.1, ch.prods, prodEne, prodLabel, "FPB", k, "pst_p_ts_str");
  }

  /** The baseline never changes after the reactant side. */
  lemma TransitionStatesKeepGround(idx: Table, fr: Frame, ch: Channel, env: Env, reacLabel: string,
                                   prodLabel: string, reacEne: real, prodEne: real)
    ensures TransitionStates(idx, fr, ch, env, reacLabel, prodLabel, reacEne, prodEne).1.firstGround
         == fr.firstGround
  {
  }

  /** Whatever the outcome, the call only adds keys to `idx_dct` and
      keeps its keys unique. */
  lemma ChannelGrowsTable(idx: Table, ch: Channel, env: Env, strs: Strs, firstGround: real)
    ensures Grows(idx, ChannelPfs(idx, ch, env, strs, firstGround).0)
  {
    var reacEne := SideEnergy(ch.reacs, env);
    var prodEne := SideEnergy(ch.prods, env);
    var (idx1, fr1, rl) := ReactantSide(idx, Start(idx, strs, firstGround), ch.reacs, reacEne);
    SidesGrow(idx, Start(idx, strs, firstGround), ch.reacs, reacEne);
    var (idx2, fr2, pl) := ProductSide(idx1, fr1, ch.prods, prodEne);
    SidesGrow(idx1, fr1, ch.prods, prodEne);
    TransitionStatesGrow(idx2, fr2, ch, env, rl, pl, reacEne, prodEne);
  }

  /** `Grows` is all a call keeps: the key of a phase-space-theory block
      is the fake-well key with every `F` replaced, and it can be a key
      already in the table. The fake well of an abstraction `A+B` then
      overwrites the entry of the species pair `FRBA`, `B` with its
      block label. */
  lemma PstKeyOverwrites(fr: Frame)
    ensures var idx: Table := [("FRBA+B", "P1")];
      var (idx', _, _) := FakeWellSide(idx, fr, ["A", "B"], 0.0, "P1", "FRB", 0, "pst_r_ts_str");
      && Has(idx', "FRBA+B") && Get(idx', "FRBA+B") == "FRB1" && Get(idx, "FRBA+B") == "P1"
  {
    var idx: Table := [("FRBA+B", "P1")];
    assert ComboKey(["A", "B"]) == "A+B";
    assert ReverseSeq(["A", "B"]) == ["B", "A"];
    assert ComboKey(["B", "A"]) == "B+A";
    assert !Has(idx, "FA+B") && !Has(idx, "FB+A");
    assert Replace("FA+B", 'F', "FRB") == "FRBA+B";
    assert NatToString(1) == "1";
  }

  /** The returned baseline is the reactant energy exactly when the
      baseline passed in was falsy and the reactant combination was new;
      otherwise it is the one passed in. */
  lemma ChannelFirstGround(idx: Table, ch: Channel, env: Env, strs: Strs, firstGround: real)
    requires ChannelPfs(idx, ch, env, strs, firstGround).1.Ok?
    ensures ChannelPfs(idx, ch, env, strs, firstGround).1.value.firstGround
         == if firstGround == 0.0 && !Resolved(idx, ch.reacs) then SideEnergy(ch.reacs, env) else firstGround
  {
    var reacEne := SideEnergy(ch.reacs, env);
    var prodEne := SideEnergy(ch.prods, env);
    var (idx1, fr1, rl) := ReactantSide(idx, Start(idx, strs, firstGround), ch.reacs, reacEne);
    var (idx2, fr2, pl) := ProductSide(idx1, fr1, ch.prods, prodEne);
    TransitionStatesKeepGround(idx2, fr2, ch, env, rl, pl, reacEne, prodEne);
  }

  /** A channel of neither special class. */
  predicate Tight(ch: Channel)
  {
    !Contains(ch.tsClass, RadicalRadical) && !Contains(ch.tsClass, Abstraction)
  }

  /** When both combinations already have labels, in either order, a tight
      channel adds nothing to the table, the well or the bimolecular block,
      and its saddle point joins the stored labels, with barriers that are
      never negative. */
  lemma TightChannelReuse(idx: Table, ch: Channel, env: Env, strs: Strs, firstGround: real)
    requires Resolved(idx, ch.reacs) && Resolved(idx, ch.prods) && Tight(ch)
    ensures var (idx', res) := ChannelPfs(idx, ch, env, strs, firstGround);
      && idx' == idx && res.Ok?
      && res.value.firstGround == firstGround
      && res.value.strs.0 == strs.1 && res.value.strs.1 == strs.0
      && |res.value.strs.2| == |strs.2| + 1 && res.value.strs.2[..|strs.2|] == strs.2
      && var b := res.value.strs.2[|strs.2|];
         && b.Sadpt? && b.name == TsLabel(ch.tsIndex)
         && b.from == StoredLabel(idx, ch.reacs) && b.to == StoredLabel(idx, ch.prods)
         && b.tunnel.Eckart? && b.tunnel.reacBarrier >= 0.0 && b.tunnel.prodBarrier >= 0.0
  {
    var reacEne := SideEnergy(ch.reacs, env);
    var prodEne := SideEnergy(ch.prods, env);
    var fr0 := Start(idx, strs, firstGround);
    SideReuse(idx, fr0, ch.reacs, reacEne);
    SideReuse(idx, fr0, ch.prods, prodEne);
    var fr3 := TightTs(fr0, ch, env, StoredLabel(idx, ch.reacs), StoredLabel(idx, ch.prods), reacEne, prodEne);
    assert fr3.tss[..|strs.2|] == strs.2;
  }

  /** A combination resolved in one order is resolved in the other, so a
      later channel that lists it reversed finds it. */
  lemma ResolvedReversed(idx: Table, names: seq<string>)
    requires Resolved(idx, names)
    ensures Resolved(idx, ReverseSeq(names))
  {
    ReverseReverse(names);
  }

  /** After a successful call both combinations have labels, so a later
      channel through the same species, listed in either order, reuses them. */
  lemma ChannelResolvesBothSides(idx: Table, ch: Channel, env: Env, strs: Strs, firstGround: real)
    requires ChannelPfs(idx, ch, env, strs, firstGround).1.Ok?
    ensures var idx' := ChannelPfs(idx, ch, env, strs, firstGround).0;
      && Resolved(idx', ch.reacs) && Resolved(idx', ch.prods)
      && Resolved(idx', ReverseSeq(ch.reacs)) && Resolved(idx', ReverseSeq(ch.prods))
  {
    var reacEne := SideEnergy(ch.reacs, env);
    var prodEne := SideEnergy(ch.prods, env);
    var fr0 := Start(idx, strs, firstGround);
    var (idx1, fr1, rl) := ReactantSide(idx, fr0, ch.reacs, reacEne);
    assert Resolved(idx1, ch.reacs);
    var (idx2, fr2, pl) := ProductSide(idx1, fr1, ch.prods, prodEne);
    SidesGrow(idx1, fr1, ch.prods, prodEne);
    assert Resolved(idx2, ch.reacs) && Resolved(idx2, ch.prods);
    var idx3 := TransitionStates(idx2, fr2, ch, env, rl, pl, reacEne, prodEne).0;
    TransitionStatesGrow(idx2, fr2, ch, env, rl, pl, reacEne, prodEne);
    assert Resolved(idx3, ch.reacs) && Resolved(idx3, ch.prods);
    ResolvedReversed(idx3, ch.reacs);
    ResolvedReversed(idx3, ch.prods);
  }

  /** A new reactant entry raises the counter of its kind seen by the next
      call by one: the P counter for a bimolecular combination, the W
      counter otherwise. */
  lemma ReactantSideAdvancesStart(idx: Table, fr: Frame, reacs: seq<string>, ene: real,
                                  strs: Strs, firstGround: real)
    requires !Resolved(idx, reacs) && |reacs| >= 1
    ensures var idx' := ReactantSide(idx, fr, reacs, ene).0;
      && Start(idx', strs, firstGround).pidx == Start(idx, strs, firstGround).pidx + (if |reacs| > 1 then 1 else 0)
      && Start(idx', strs, firstGround).widx == Start(idx, strs, firstGround).widx + (if |reacs| > 1 then 0 else 1)
      && Start(idx', strs, firstGround).fidx == Start(idx, strs, firstGround).fidx
  {
    var (idx', fr', lbl) := ReactantSide(idx, fr, reacs, ene);
    ReactantSideNew(idx, fr, reacs, ene);
    var key := ComboKey(reacs);
    assert idx' == Put(idx, key, lbl);
    LabelKinds(fr.pidx);
    LabelKinds(fr.widx);
    CountAfterNewEntry(idx, key, lbl, PKind);
    CountAfterNewEntry(idx, key, lbl, WKind);
    CountAfterNewEntry(idx, key, lbl, FKind);
  }
}
