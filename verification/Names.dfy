/// Machine names (internal/engine/machines.go).
///
/// A machine belongs to a chart only by the prefix of its name, so the whole
/// lifecycle rests on when two charts can claim the same name. `Collide` is the
/// exact condition on two chart IDs; IDs without the separator never collide
/// unless they are equal.
module Names {
  const LAYER_PREFIX := "gp"
  const NAME_SEP := "_"

  function MachineName(chartId: string, layerId: string): string {
    LAYER_PREFIX + NAME_SEP + chartId + NAME_SEP + layerId
  }

  function ChartPrefix(chartId: string): string {
    LAYER_PREFIX + NAME_SEP + chartId + NAME_SEP
  }

  predicate HasPrefix(s: string, prefix: string) {
    prefix <= s
  }

  /** The machine is named like one of the chart's. */
  predicate Owns(chartId: string, name: string) {
    HasPrefix(name, ChartPrefix(chartId))
  }

  /** The machine is named like one of the runner's. */
  predicate IsLayer(name: string) {
    HasPrefix(name, LAYER_PREFIX + NAME_SEP)
  }

  /** One of the two IDs, closed by the separator, starts the other. */
  predicate Collide(c: string, d: string) {
    || c + NAME_SEP <= d + NAME_SEP
    || d + NAME_SEP <= c + NAME_SEP
  }

  ghost predicate PrefixFree(ids: set<string>) {
    forall c, d :: c in ids && d in ids && c != d ==> !Collide(c, d)
  }

  predicate SepFree(id: string) {
    NAME_SEP[0] !in id
  }

  lemma PrefixesCompare(a: string, b: string, s: string)
    requires a <= s && b <= s
    ensures a <= b || b <= a
  {
  }

  lemma CommonHead(p: string, a: string, b: string)
    ensures p + a <= p + b <==> a <= b
  {
    if p + a <= p + b {
      assert a == (p + a)[|p|..] == (p + b)[|p|..][..|a|];
    }
    if a <= b {
      assert b == a + b[|a|..];
      assert p + b == (p + a) + b[|a|..];
    }
  }

  lemma PrefixesAsIds(c: string, d: string)
    ensures ChartPrefix(c) <= ChartPrefix(d) <==> c + NAME_SEP <= d + NAME_SEP
  {
    var p := LAYER_PREFIX + NAME_SEP;
    assert ChartPrefix(c) == p + (c + NAME_SEP);
    assert ChartPrefix(d) == p + (d + NAME_SEP);
    CommonHead(p, c + NAME_SEP, d + NAME_SEP);
  }

  /** A chart owns every machine it names, and every owned machine is a layer. */
  lemma OwnsItsLayers(c: string, layerId: string)
    ensures Owns(c, MachineName(c, layerId))
    ensures forall n :: Owns(c, n) ==> IsLayer(n)
  {
  }

  lemma OwnedByBoth(c: string, d: string, name: string)
    requires Owns(c, name) && Owns(d, name)
    ensures Collide(c, d)
  {
    PrefixesCompare(ChartPrefix(c), ChartPrefix(d), name);
    PrefixesAsIds(c, d);
    PrefixesAsIds(d, c);
  }

  /** Two charts can claim one machine exactly when their IDs collide. */
  lemma CollideExactly(c: string, d: string)
    ensures Collide(c, d) <==> exists layerId :: Owns(d, MachineName(c, layerId)) || Owns(c, MachineName(d, layerId))
  {
    OwnsItsLayers(c, "");
    OwnsItsLayers(d, "");
    if layerId :| Owns(d, MachineName(c, layerId)) || Owns(c, MachineName(d, layerId)) {
      OwnsItsLayers(c, layerId);
      OwnsItsLayers(d, layerId);
      if Owns(d, MachineName(c, layerId)) {
        OwnedByBoth(c, d, MachineName(c, layerId));
      } else {
        OwnedByBoth(c, d, MachineName(d, layerId));
      }
    }
    if Collide(c, d) {
      PrefixesAsIds(c, d);
      PrefixesAsIds(d, c);
      assert MachineName(d, "") == ChartPrefix(d);
      assert MachineName(c, "") == ChartPrefix(c);
      assert Owns(d, MachineName(c, "")) || Owns(c, MachineName(d, ""));
    }
  }

  /** Charts whose IDs do not collide never claim each other's machines, and a
      name determines the chart and the layer it was made from. */
  lemma ChartIsolation(c: string, d: string, l: string, m: string)
    requires c != d ==> !Collide(c, d)
    ensures Owns(d, MachineName(c, l)) <==> c == d
    ensures MachineName(c, l) == MachineName(d, m) <==> c == d && l == m
  {
    OwnsItsLayers(c, l);
    OwnsItsLayers(d, m);
    if Owns(d, MachineName(c, l)) && c != d {
      OwnedByBoth(c, d, MachineName(c, l));
    }
    if MachineName(c, l) == MachineName(d, m) {
      var p := ChartPrefix(c);
      assert c == d;
      assert MachineName(c, l)[|p|..] == l;
      assert MachineName(d, m)[|p|..] == m;
    }
  }

  lemma SepFreeHead(c: string, d: string)
    requires SepFree(d) && c + NAME_SEP <= d + NAME_SEP
    ensures c == d
  {
    var cs, ds := c + NAME_SEP, d + NAME_SEP;
    assert ds[|c|] == cs[|c|] == NAME_SEP[0];
    assert forall i :: 0 <= i < |d| ==> ds[i] in d;
    assert c == cs[..|c|] == ds[..|d|] == d;
  }

  /** IDs without the separator: the hypothesis under which the runner's charts
      are isolated is met by every set of them. */
  lemma SepFreeIdsArePrefixFree(ids: set<string>)
    requires forall c :: c in ids ==> SepFree(c)
    ensures PrefixFree(ids)
  {
    forall c, d | c in ids && d in ids && c != d
      ensures !Collide(c, d)
    {
      if c + NAME_SEP <= d + NAME_SEP {
        SepFreeHead(c, d);
      }
      if d + NAME_SEP <= c + NAME_SEP {
        SepFreeHead(d, c);
      }
    }
  }

  /** Nothing in the code forbids separators in IDs, and then isolation fails:
      taking down chart "a" takes the machines of chart "a_b" with it. */
  lemma SeparatorBreaksIsolation()
    ensures "a" != "a_b" && Owns("a", MachineName("a_b", "x"))
    ensures MachineName("a_b", "x") == MachineName("a", "b_x")
  {
  }
}
