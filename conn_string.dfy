/**
  Connection strings of the form `key=value;key=value;...`, which is what the
  `fmt.Sprintf` templates of the connection-string builders produce. `Render`
  writes a list of pairs in order; `Parse` is its partner: it splits at every
  `;` and each field at its first `=`.
*/
module ConnString {
  import opened Wrappers

  type Pair = (string, string)

  function Render(ps: seq<Pair>): string
    decreases |ps|
  {
    if |ps| == 0 then ""
    else if |ps| == 1 then ps[0].0 + "=" + ps[0].1
    else ps[0].0 + "=" + ps[0].1 + ";" + Render(ps[1..])
  }

  /** The `;`-separated fields of `s` (always at least one, possibly empty). */
  function Split(s: string): (r: seq<string>)
    ensures |r| >= 1
    decreases |s|
  {
    if s == [] then [""]
    else if s[0] == ';' then [""] + Split(s[1..])
    else
      var rest := Split(s[1..]);
      [[s[0]] + rest[0]] + rest[1..]
  }

  /** A field cut at its first `=`; `None` when it has none. */
  function Cut(f: string): Option<Pair>
    decreases |f|
  {
    if f == [] then None
    else if f[0] == '=' then Some(("", f[1..]))
    else match Cut(f[1..])
      case None => None
      case Some(kv) => Some(([f[0]] + kv.0, kv.1))
  }

  function CutAll(fs: seq<string>): Option<seq<Pair>>
    decreases |fs|
  {
    if |fs| == 0 then Some([])
    else match (Cut(fs[0]), CutAll(fs[1..]))
      case (Some(p), Some(ps)) => Some([p] + ps)
      case _ => None
  }

  function Parse(s: string): Option<seq<Pair>> {
    if s == "" then Some([]) else CutAll(Split(s))
  }

  /** A pair survives the round trip: no separator in the key, no `;` in the value. */
  predicate Plain(p: Pair) {
    '=' !in p.0 && ';' !in p.0 && ';' !in p.1
  }

  lemma {:induction false} SplitPlain(a: string)
    requires ';' !in a
    ensures Split(a) == [a]
    decreases |a|
  {
    if a != [] {
      SplitPlain(a[1..]);
      assert [a[0]] + a[1..] == a;
    }
  }

  lemma {:induction false} SplitAt(a: string, b: string)
    requires ';' !in a
    ensures Split(a + ";" + b) == [a] + Split(b)
    decreases |a|
  {
    if a == [] {
      assert a + ";" + b == [';'] + b;
      assert (a + ";" + b)[1..] == b;
    } else {
      assert (a + ";" + b)[1..] == a[1..] + ";" + b;
      SplitAt(a[1..], b);
      assert [a[0]] + a[1..] == a;
    }
  }

  lemma {:induction false} CutPair(k: string, v: string)
    requires '=' !in k
    ensures Cut(k + "=" + v) == Some((k, v))
    decreases |k|
  {
    if k == [] {
      assert (k + "=" + v)[1..] == v;
    } else {
      assert (k + "=" + v)[1..] == k[1..] + "=" + v;
      CutPair(k[1..], v);
      assert [k[0]] + k[1..] == k;
    }
  }

  lemma {:induction false} RenderFields(ps: seq<Pair>)
    requires |ps| >= 1
    requires forall i :: 0 <= i < |ps| ==> Plain(ps[i])
    ensures Split(Render(ps)) == seq(|ps|, i requires 0 <= i < |ps| => ps[i].0 + "=" + ps[i].1)
    decreases |ps|
  {
    var f := ps[0].0 + "=" + ps[0].1;
    assert ';' !in f by {
      assert forall j :: 0 <= j < |f| ==> f[j] in ps[0].0 || f[j] == '=' || f[j] in ps[0].1;
    }
    if |ps| == 1 {
      SplitPlain(f);
    } else {
      RenderFields(ps[1..]);
      SplitAt(f, Render(ps[1..]));
    }
  }

  lemma {:induction false} CutFields(ps: seq<Pair>)
    requires forall i :: 0 <= i < |ps| ==> Plain(ps[i])
    ensures CutAll(seq(|ps|, i requires 0 <= i < |ps| => ps[i].0 + "=" + ps[i].1)) == Some(ps)
    decreases |ps|
  {
    var fs := seq(|ps|, i requires 0 <= i < |ps| => ps[i].0 + "=" + ps[i].1);
    if |ps| > 0 {
      CutPair(ps[0].0, ps[0].1);
      CutFields(ps[1..]);
      assert fs[1..] == seq(|ps[1..]|, i requires 0 <= i < |ps[1..]| => ps[1..][i].0 + "=" + ps[1..][i].1);
      assert [ps[0]] + ps[1..] == ps;
    }
  }

  /** Parsing a rendered list of plain pairs gives the same pairs, in the same order. */
  lemma ParseRender(ps: seq<Pair>)
    requires forall i :: 0 <= i < |ps| ==> Plain(ps[i])
    ensures Parse(Render(ps)) == Some(ps)
  {
    if |ps| > 0 {
      assert Render(ps)[|ps[0].0|] == '=';
      RenderFields(ps);
      CutFields(ps);
    }
  }
  /** Appending a pair appends `;key=value` to the rendered string. */
  lemma {:induction false} RenderSnoc(ps: seq<Pair>, q: Pair)
    requires |ps| > 0
    ensures Render(ps + [q]) == Render(ps) + (";" + q.0 + "=") + q.1
    decreases |ps|
  {
    assert (ps + [q])[1..] == ps[1..] + [q];
    if |ps| > 1 {
      RenderSnoc(ps[1..], q);
    }
  }

  /** Seven rendered fields: `k=v`, each later one preceded by `;`. */
  lemma RenderSeven(a: Pair, b: Pair, c: Pair, d: Pair, e: Pair, f: Pair, g: Pair)
    ensures Render([a, b, c, d, e, f, g]) ==
      (a.0 + "=") + a.1 + (";" + b.0 + "=") + b.1 + (";" + c.0 + "=") + c.1 + (";" + d.0 + "=") + d.1
      + (";" + e.0 + "=") + e.1 + (";" + f.0 + "=") + f.1 + (";" + g.0 + "=") + g.1
  {
    RenderSnoc([a], b);
    assert [a] + [b] == [a, b];
    RenderSnoc([a, b], c);
    assert [a, b] + [c] == [a, b, c];
    RenderSnoc([a, b, c], d);
    assert [a, b, c] + [d] == [a, b, c, d];
    RenderSnoc([a, b, c, d], e);
    assert [a, b, c, d] + [e] == [a, b, c, d, e];
    RenderSnoc([a, b, c, d, e], f);
    assert [a, b, c, d, e] + [f] == [a, b, c, d, e, f];
    RenderSnoc([a, b, c, d, e, f], g);
    assert [a, b, c, d, e, f] + [g] == [a, b, c, d, e, f, g];
  }

  /** Eight rendered fields, likewise. */
  lemma RenderEight(a: Pair, b: Pair, c: Pair, d: Pair, e: Pair, f: Pair, g: Pair, h: Pair)
    ensures Render([a, b, c, d, e, f, g, h]) ==
      (a.0 + "=") + a.1 + (";" + b.0 + "=") + b.1 + (";" + c.0 + "=") + c.1 + (";" + d.0 + "=") + d.1
      + (";" + e.0 + "=") + e.1 + (";" + f.0 + "=") + f.1 + (";" + g.0 + "=") + g.1 + (";" + h.0 + "=") + h.1
  {
    RenderSeven(a, b, c, d, e, f, g);
    RenderSnoc([a, b, c, d, e, f, g], h);
    assert [a, b, c, d, e, f, g] + [h] == [a, b, c, d, e, f, g, h];
  }

  /** The keys of the SQL Server connection strings, each with its separators, as one literal. */
  lemma Claves()
    ensures "server" + "=" == "server="
    ensures ";" + "port" + "=" == ";port="
    ensures ";" + "database" + "=" == ";database="
    ensures ";" + "user id" + "=" == ";user id="
    ensures ";" + "password" + "=" == ";password="
    ensures ";" + "encrypt" + "=" == ";encrypt="
    ensures ";" + "TrustServerCertificate" + "=" == ";TrustServerCertificate="
    ensures ";" + "connection timeout" + "=" == ";connection timeout="
  {
  }

  /** A string without `=` and `;`, stated by position. */
  lemma PlainKey(k: string)
    requires forall i :: 0 <= i < |k| ==> k[i] != '=' && k[i] != ';'
    ensures Plain((k, ""))
  {
  }

  /** No key of the SQL Server connection strings contains `=` or `;`. */
  lemma ClavesPlanas()
    ensures Plain(("server", "")) && Plain(("port", "")) && Plain(("database", "")) && Plain(("user id", ""))
    ensures Plain(("password", "")) && Plain(("encrypt", "")) && Plain(("TrustServerCertificate", ""))
    ensures Plain(("connection timeout", ""))
  {
    PlainKey("server");
    PlainKey("port");
    PlainKey("database");
    PlainKey("user id");
    PlainKey("password");
    PlainKey("encrypt");
    PlainKey("TrustServerCertificate");
    PlainKey("connection timeout");
  }

  lemma {:induction false} RenderHead(ps: seq<Pair>)
    requires |ps| >= 1
    ensures |Render(ps)| > |ps[0].0| + |ps[0].1|
    ensures Render(ps)[..|ps[0].0| + 1 + |ps[0].1|] == ps[0].0 + "=" + ps[0].1
  {
  }

  /**
    Two lists with the same keys whose values differ at one position in their
    first character render to different strings.
  */
  lemma {:induction false} RenderDiffersAt(ps: seq<Pair>, qs: seq<Pair>, k: nat)
    requires |ps| == |qs| && k < |ps|
    requires forall i :: 0 <= i < |ps| && i != k ==> ps[i] == qs[i]
    requires ps[k].0 == qs[k].0 && |ps[k].1| >= 1 && |qs[k].1| >= 1 && ps[k].1[0] != qs[k].1[0]
    ensures Render(ps) != Render(qs)
    decreases k
  {
    var n := |ps[0].0|;
    if k == 0 {
      RenderHead(ps);
      RenderHead(qs);
      assert Render(ps)[n + 1] == (ps[0].0 + "=" + ps[0].1)[n + 1] == ps[0].1[0];
      assert Render(qs)[n + 1] == (qs[0].0 + "=" + qs[0].1)[n + 1] == qs[0].1[0];
    } else {
      var head := ps[0].0 + "=" + ps[0].1 + ";";
      assert forall i :: 0 <= i < |ps[1..]| && i != k - 1 ==> ps[1..][i] == ps[i + 1] == qs[i + 1] == qs[1..][i];
      RenderDiffersAt(ps[1..], qs[1..], k - 1);
      assert Render(ps) == head + Render(ps[1..]);
      assert Render(qs) == head + Render(qs[1..]);
      assert Render(ps)[|head|..] == Render(ps[1..]);
      assert Render(qs)[|head|..] == Render(qs[1..]);
    }
  }
}
