/// Fair Tree dominance: whoever sits under the better served of two siblings
/// gets strictly less fairshare than whoever sits under the other one.

module Dominance {
  import opened WeightPath
  import opened WeightedTree

  /** Whether shares sx and usage ux entitle to more than shares sy and usage uy:
      having shares beats having none, being unused beats being used, and
      between used siblings more shares per usage win. */
  predicate Deserves(sx: nat, ux: nat, sy: nat, uy: nat)
  {
    && 0 < sx
    && (sy == 0 || (ux == 0 && 0 < uy) || (0 < ux && 0 < uy && sx * uy > sy * ux))
  }

  lemma CrossMultiply(sx: real, ux: real, sy: real, uy: real, s: real, u: real)
    requires 0.0 < sx && 0.0 < ux && 0.0 < sy && 0.0 < uy && 0.0 < s && 0.0 < u
    ensures (sx / s) / (ux / u) == (sx / ux) * (u / s)
    ensures (sx / s) / (ux / u) > (sy / s) / (uy / u) <==> sx * uy > sy * ux
  {
    Regroup(sx, ux, s, u);
    Regroup(sy, uy, s, u);
    var a, b, c := sx / ux, sy / uy, u / s;
    assert 0.0 < c;
    assert a * c > b * c <==> a > b;
    FractionOrder(sx, ux, sy, uy);
  }

  lemma Regroup(x: real, y: real, s: real, u: real)
    requires 0.0 < y && 0.0 < s && 0.0 < u
    ensures 0.0 < y / u && (x / s) / (y / u) == (x / y) * (u / s)
  {
    var w := (x / y) * (u / s);
    assert w * (y / u) == x / s by {
      assert (y / u) * u == y && (u / s) * s == u && (x / y) * y == x;
      calc {
        w * (y / u) * s;
        (x / y) * (u / s) * (y / u) * s;
        (x / y) * (y / u) * ((u / s) * s);
        (x / y) * ((y / u) * u);
        x;
      }
    }
  }

  lemma FractionOrder(a: real, b: real, c: real, d: real)
    requires 0.0 < b && 0.0 < d
    ensures a / b > c / d <==> a * d > c * b
  {
    var p, q := a / b, c / d;
    assert p * b == a && q * d == c;
    assert a * d == p * (b * d) && c * b == q * (b * d);
    assert 0.0 < b * d;
  }

  /** Every weight that is not the sentinel stays below it, as long as the
      sibling usages sum to a 64-bit integer. */
  lemma BelowSentinel(shares: nat, usage: nat, s: nat, u: nat)
    requires 0 < shares <= s && 0 < usage <= u <= MAX_UINT64
    ensures 0.0 < WeightOf(shares, usage, s, u) < MAX_UINT64 as real + 1.0
  {
    var x, y, sr, ur := shares as real, usage as real, s as real, u as real;
    var w := (x / sr) / (y / ur);
    Regroup(x, y, sr, ur);
    assert w == (x / y) * (ur / sr);
    Bounded(x, y, sr, ur);
  }

  lemma Bounded(x: real, y: real, s: real, u: real)
    requires 0.0 < x <= s && 1.0 <= y && 0.0 < u
    ensures 0.0 < (x / y) * (u / s) <= u
  {
    var a, b := x / y, u / s;
    assert a * y == x && b * s == u;
    assert 0.0 < a && 0.0 < b;
    assert a <= x;
    assert a * b <= s * b;
  }

  /** Among siblings the heavier one is the one that deserves more. */
  lemma HeavierDeservesMore(sx: nat, ux: nat, sy: nat, uy: nat, s: nat, u: nat)
    requires sx <= s && sy <= s && ux <= u && uy <= u <= MAX_UINT64
    ensures WeightOf(sx, ux, s, u) > WeightOf(sy, uy, s, u) <==> Deserves(sx, ux, sy, uy)
  {
    if 0 < sx && 0 < ux {
      BelowSentinel(sx, ux, s, u);
    }
    if 0 < sy && 0 < uy {
      BelowSentinel(sy, uy, s, u);
    }
    if 0 < sx && 0 < ux && 0 < sy && 0 < uy {
      UsedSiblings(sx, ux, sy, uy, s, u);
    }
  }

  lemma UsedSiblings(sx: nat, ux: nat, sy: nat, uy: nat, s: nat, u: nat)
    requires 0 < sx <= s && 0 < sy <= s && 0 < ux <= u && 0 < uy <= u
    ensures WeightOf(sx, ux, s, u) > WeightOf(sy, uy, s, u) <==> sx * uy > sy * ux
  {
    CrossMultiply(sx as real, ux as real, sy as real, uy as real, s as real, u as real);
    CastProduct(sx, uy);
    CastProduct(sy, ux);
  }

  lemma CastProduct(a: nat, b: nat)
    ensures (a * b) as real == a as real * b as real
  {
  }

  // ----- dominance in a tree -----

  /** A line of descent: each node is a child of the one before. */
  ghost predicate Line(line: seq<Node>)
    reads line`children
  {
    line != [] && forall i | 0 <= i < |line| - 1 :: line[i + 1] in line[i].children
  }

  /** The weights met down a line. */
  ghost function LineWeights(line: seq<Node>): Path
    reads line`trueWeight
  {
    if |line| <= 1 then [] else [line[1].trueWeight] + LineWeights(line[1..])
  }

  /** Users below the end of a line are users of its start, on a path that
      follows the line. */
  lemma {:induction false} DownTheLine(line: seq<Node>, u: Node)
    requires Line(line) && line[0].Tree() && u in line[|line| - 1].paths
    ensures line[|line| - 1] in line[0].repr
    ensures u in line[0].paths && line[0].paths[u] == LineWeights(line) + line[|line| - 1].paths[u]
    decreases |line|
  {
    var n := line[0];
    assert n.Shape() && n.PathsKnown();
    if 1 < |line| {
      var c := line[1];
      assert c in n.children && c in n.repr;
      n.SubTree(c);
      DownTheLine(line[1..], u);
      assert [c.trueWeight] + (LineWeights(line[1..]) + line[|line| - 1].paths[u])
          == LineWeights(line) + line[|line| - 1].paths[u];
    }
  }

  /** Everyone under the sibling that deserves more gets strictly more fairshare
      than anyone under the other, wherever in the tree the two siblings are. */
  lemma Dominance(line: seq<Node>, x: Node, y: Node, u: Node, v: Node)
    requires Line(line) && line[0].Sound()
    requires x in line[|line| - 1].children && y in line[|line| - 1].children
    requires u in x.paths && v in y.paths
    requires Deserves(x.shares, x.usage, y.shares, y.usage)
    ensures u in line[0].paths && v in line[0].paths
    ensures FairShare(line[0].paths, u) > FairShare(line[0].paths, v)
  {
    var root, p := line[0], line[|line| - 1];
    InTree(line);
    assert p.PathsKnown() && p.Weighted() && p.Shape();
    DownTheLine(line, u);
    DownTheLine(line, v);
    HeavierDeservesMore(x.shares, x.usage, y.shares, y.usage, SumShares(p.children), SumUsage(p.children));
    AheadPrefix(LineWeights(line), p.paths[u], p.paths[v]);
    FairShareFollowsPaths(root.paths, u, v);
  }

  lemma {:induction false} InTree(line: seq<Node>)
    requires Line(line) && line[0].Tree()
    ensures line[|line| - 1] in line[0].repr
    decreases |line|
  {
    if 1 < |line| {
      assert line[1] in line[0].children;
      line[0].SubTree(line[1]);
      InTree(line[1..]);
      assert line[0].Shape();
    }
  }
}
