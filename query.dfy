/**
 * Query strings as the screens build them: `key=value` fields joined with `&`, values
 * interpolated as they are. `Parse` reads such a string back, as the server does.
 */
module Query {
  import opened JsText

  datatype Param = Param(key: string, value: string)

  function Field(p: Param): string {
    p.key + "=" + p.value
  }

  /** The keys of the parameters, in order. */
  function Keys(ps: seq<Param>): (ks: seq<string>)
    ensures |ks| == |ps| && forall k :: 0 <= k < |ps| ==> ks[k] == ps[k].key
  {
    seq(|ps|, k requires 0 <= k < |ps| => ps[k].key)
  }

  function Fields(ps: seq<Param>): (fs: seq<string>)
    ensures |fs| == |ps|
    ensures forall k :: 0 <= k < |ps| ==> fs[k] == Field(ps[k])
  {
    if ps == [] then [] else [Field(ps[0])] + Fields(ps[1..])
  }

  /** `k1=v1&k2=v2&...` */
  function Render(ps: seq<Param>): string
    requires |ps| >= 1
  {
    Join(Fields(ps), '&')
  }

  /** The URL that carries `ps`: no `?` at all when there are no parameters. */
  function WithQuery(base: string, ps: seq<Param>): string {
    if ps == [] then base else base + "?" + Render(ps)
  }

  /** One `key=value` field, split at its first `=`. */
  function ParseField(f: string): Param {
    var i := IndexOf(f, '=');
    if i == -1 then Param(f, "") else Param(f[..i], f[i + 1..])
  }

  /** Reads a query string back into its fields. */
  function Parse(q: string): (ps: seq<Param>)
    ensures |ps| == |Split(q, '&')|
  {
    var parts := Split(q, '&');
    seq(|parts|, k requires 0 <= k < |parts| => ParseField(parts[k]))
  }

  /** No key holds `&` or `=`, and no value holds `&`: the rendering is unambiguous. */
  predicate Unambiguous(ps: seq<Param>) {
    forall k :: 0 <= k < |ps| ==> '&' !in ps[k].key && '=' !in ps[k].key && '&' !in ps[k].value
  }

  /** Appending one more parameter appends `&key=value`. */
  lemma RenderSnoc(ps: seq<Param>, p: Param)
    requires |ps| >= 1
    ensures Render(ps + [p]) == Render(ps) + "&" + Field(p)
  {
    assert Fields(ps + [p]) == Fields(ps) + [Field(p)];
    JoinSnoc(Fields(ps), Field(p), '&');
  }

  /** `k=v` written out is the query of that one parameter. */
  lemma RenderSingle(k: string, t: string, v: string)
    requires t == k + "="
    ensures t + v == Render([Param(k, v)])
  {
    assert Fields([Param(k, v)]) == [Field(Param(k, v))];
  }

  /** `k1=v1&k2=v2` written out is the query of those two parameters. */
  lemma RenderPair(k1: string, t1: string, v1: string, k2: string, t2: string, v2: string)
    requires t1 == k1 + "=" && t2 == "&" + k2 + "="
    ensures t1 + v1 + t2 + v2 == Render([Param(k1, v1), Param(k2, v2)])
  {
    var ps := [Param(k1, v1), Param(k2, v2)];
    var fs := Fields(ps);
    assert fs == [Field(ps[0]), Field(ps[1])];
    assert fs[1..] == [Field(ps[1])];
    assert Join(fs[1..], '&') == fs[1];
    assert Join(fs, '&') == fs[0] + ['&'] + Join(fs[1..], '&');
    assert Render(ps) == Field(ps[0]) + ['&'] + Field(ps[1]);
    assert t2 + v2 == ['&'] + Field(ps[1]);
  }

  lemma ParseFieldOfField(p: Param)
    requires '=' !in p.key
    ensures ParseField(Field(p)) == p
  {
    var f := Field(p);
    assert f[|p.key|] == '=';
    assert f[..|p.key|] == p.key;
    assert IndexOf(f, '=') == |p.key|;
    assert f[|p.key| + 1..] == p.value;
  }

  /** Parsing a rendered query gives back the parameters, in order. */
  lemma ParseRender(ps: seq<Param>)
    requires |ps| >= 1 && Unambiguous(ps)
    ensures Parse(Render(ps)) == ps
  {
    var fs := Fields(ps);
    forall k | 0 <= k < |fs| ensures '&' !in fs[k] {
      assert fs[k] == ps[k].key + "=" + ps[k].value;
    }
    SplitJoin(fs, '&');
    forall k | 0 <= k < |ps| ensures Parse(Render(ps))[k] == ps[k] {
      ParseFieldOfField(ps[k]);
    }
  }
}
