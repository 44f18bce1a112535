/**
 * Route path templates. Koa writes a path parameter as `:name`, OpenAPI as
 * `{name}`; `name` is a maximal run of `\w` characters. The authorization
 * stage fills a controller's base path from the route parameters with the
 * same `:name` scan that the Swagger processor uses to rewrite a path, and
 * the router normalises the slashes of every full path it registers.
 */
module Paths {
  import opened Strings

  /** The longest prefix of `s` made of `\w` characters. */
  function WordRun(s: string): (r: string)
    ensures r <= s
    ensures forall i :: 0 <= i < |r| ==> IsWordChar(r[i])
    ensures |r| < |s| ==> !IsWordChar(s[|r|])
  {
    if s != [] && IsWordChar(s[0]) then [s[0]] + WordRun(s[1..]) else []
  }

  /** A run of word characters followed by the end or by a non-word character is the run. */
  lemma {:induction false} WordRunOf(run: string, rest: string)
    requires forall i :: 0 <= i < |run| ==> IsWordChar(run[i])
    requires rest == [] || !IsWordChar(rest[0])
    ensures WordRun(run + rest) == run
  {
    if run != [] {
      assert (run + rest)[1..] == run[1..] + rest;
      WordRunOf(run[1..], rest);
    }
  }

  /** `s.replace(/:(\w+)/g, (_, name) => f(name))`: scanning left to right, every `:`
      followed by a maximal run of word characters is replaced by `f` of that run;
      replacements are not scanned again. */
  function ReplaceParams(s: string, f: string -> string): string
    decreases |s|
  {
    if s == [] then []
    else if s[0] == ':' && WordRun(s[1..]) != [] then
      var name := WordRun(s[1..]);
      f(name) + ReplaceParams(s[1 + |name|..], f)
    else [s[0]] + ReplaceParams(s[1..], f)
  }

  /** One parameter at the front is replaced and the scan goes on after it. */
  lemma ReplaceParamsStep(name: string, rest: string, f: string -> string)
    requires name != [] && forall i :: 0 <= i < |name| ==> IsWordChar(name[i])
    requires rest == [] || !IsWordChar(rest[0])
    ensures ReplaceParams(":" + name + rest, f) == f(name) + ReplaceParams(rest, f)
  {
    var s := ":" + name + rest;
    assert s[1..] == name + rest;
    WordRunOf(name, rest);
    assert s[1 + |name|..] == rest;
  }

  /** Text without a `:` is copied unchanged, however it continues. */
  lemma {:induction false} ReplaceParamsLiteral(text: string, rest: string, f: string -> string)
    requires forall i :: 0 <= i < |text| ==> text[i] != ':'
    ensures ReplaceParams(text + rest, f) == text + ReplaceParams(rest, f)
  {
    if text != [] {
      var s := text + rest;
      assert text[0] != ':';
      assert s[0] == text[0] && s[1..] == text[1..] + rest;
      ReplaceParamsCopy(s, f);
      ReplaceParamsLiteral(text[1..], rest, f);
      calc {
        ReplaceParams(s, f);
        [text[0]] + ReplaceParams(text[1..] + rest, f);
        [text[0]] + (text[1..] + ReplaceParams(rest, f));
        ([text[0]] + text[1..]) + ReplaceParams(rest, f);
        { assert [text[0]] + text[1..] == text; }
        text + ReplaceParams(rest, f);
      }
    } else {
      assert text + rest == rest;
    }
  }

  /** A path without parameters is left as it is. */
  lemma ReplaceParamsNone(s: string, f: string -> string)
    requires forall i :: 0 <= i < |s| ==> s[i] != ':'
    ensures ReplaceParams(s, f) == s
  {
    ReplaceParamsLiteral(s, [], f);
    assert s + [] == s;
  }

  function Brace(name: string): string { "{" + name + "}" }

  /** swaggerProcessor's `convertPath`: `:name` becomes `{name}`. */
  function SwaggerPath(s: string): string {
    ReplaceParams(s, Brace)
  }

  /** MagicRouter's `convertPath`, `s.replace(/\{(\w+)\}/g, ':$1')`: `{name}` becomes `:name`. */
  function KoaPath(s: string): string
    decreases |s|
  {
    if s == [] then []
    else
      var name := WordRun(s[1..]);
      if s[0] == '{' && name != [] && 1 + |name| < |s| && s[1 + |name|] == '}' then
        ":" + name + KoaPath(s[2 + |name|..])
      else [s[0]] + KoaPath(s[1..])
  }

  /** A `{name}` group at the front becomes `:name`. */
  lemma KoaPathBraceStep(name: string, rest: string)
    requires name != [] && forall i :: 0 <= i < |name| ==> IsWordChar(name[i])
    ensures KoaPath(Brace(name) + rest) == ":" + name + KoaPath(rest)
  {
    var t := Brace(name) + rest;
    assert t[0] == '{';
    assert t[1..] == name + ("}" + rest);
    WordRunOf(name, "}" + rest);
    assert t[1 + |name|] == '}';
    assert t[2 + |name|..] == rest;
  }

  /** Any other first character is copied. */
  lemma KoaPathLiteral(c: char, rest: string)
    requires c != '{'
    ensures KoaPath([c] + rest) == [c] + KoaPath(rest)
  {
    assert ([c] + rest)[1..] == rest;
  }

  /** ReplaceParams unfolded once at a character that starts no parameter. */
  lemma ReplaceParamsCopy(s: string, f: string -> string)
    requires s != [] && !(s[0] == ':' && WordRun(s[1..]) != [])
    ensures ReplaceParams(s, f) == [s[0]] + ReplaceParams(s[1..], f)
  {
  }

  /** On a path with no `{`, MagicRouter's conversion undoes swaggerProcessor's. */
  lemma {:induction false} KoaPathInvertsSwaggerPath(s: string)
    requires forall i :: 0 <= i < |s| ==> s[i] != '{'
    ensures KoaPath(SwaggerPath(s)) == s
    decreases |s|
  {
    if s == [] {
    } else if s[0] == ':' && WordRun(s[1..]) != [] {
      var name := WordRun(s[1..]);
      var rest := s[1 + |name|..];
      assert s == ":" + name + rest;
      ReplaceParamsStep(name, rest, Brace);
      assert SwaggerPath(s) == Brace(name) + SwaggerPath(rest);
      KoaPathBraceStep(name, SwaggerPath(rest));
      KoaPathInvertsSwaggerPath(rest);
    } else {
      ReplaceParamsCopy(s, Brace);
      KoaPathLiteral(s[0], SwaggerPath(s[1..]));
      KoaPathInvertsSwaggerPath(s[1..]);
      assert s == [s[0]] + s[1..];
    }
  }

  /** A literal prefix is copied and the parameter after it is braced. */
  lemma {:induction false} SwaggerPathParam(prefix: string, name: string, rest: string)
    requires forall i :: 0 <= i < |prefix| ==> prefix[i] != ':'
    requires name != [] && forall i :: 0 <= i < |name| ==> IsWordChar(name[i])
    requires rest == [] || !IsWordChar(rest[0])
    ensures SwaggerPath(prefix + ":" + name + rest) == prefix + "{" + name + "}" + SwaggerPath(rest)
  {
    var t := ":" + name + rest;
    assert prefix + ":" + name + rest == prefix + t;
    ReplaceParamsLiteral(prefix, t, Brace);
    ReplaceParamsStep(name, rest, Brace);
    var b, sr := Brace(name), SwaggerPath(rest);
    assert SwaggerPath(prefix + t) == prefix + (b + sr);
    assert prefix + (b + sr) == prefix + "{" + name + "}" + sr;
  }

  /** `.replace(/\/+/g, '/')`: every run of slashes becomes one slash. */
  function CollapseSlashes(s: string): string
  {
    if s == [] then []
    else if s[0] == '/' && |s| > 1 && s[1] == '/' then CollapseSlashes(s[1..])
    else [s[0]] + CollapseSlashes(s[1..])
  }

  predicate NoDoubleSlash(s: string) {
    forall i :: 0 <= i < |s| - 1 ==> !(s[i] == '/' && s[i + 1] == '/')
  }

  /** `.replace(/\/$/, '')`. */
  function DropTrailingSlash(s: string): string {
    if s != [] && s[|s| - 1] == '/' then s[..|s| - 1] else s
  }

  /** The full-path normalisation of registerController: collapse slashes, drop one trailing
      slash, and use "/" for what is left empty. */
  function NormalizePath(s: string): (r: string)
    ensures r != []
    ensures NoDoubleSlash(r)
    ensures r[|r| - 1] == '/' <==> r == "/"
  {
    CollapseNoDoubleSlash(s);
    var t := DropTrailingSlash(CollapseSlashes(s));
    if t == [] then "/" else t
  }

  /** Collapsing keeps the first character's kind: the result starts with a slash exactly
      when the input does. */
  lemma {:induction false} CollapseHead(s: string)
    ensures CollapseSlashes(s) == [] <==> s == []
    ensures s != [] ==> (CollapseSlashes(s)[0] == '/' <==> s[0] == '/')
  {
    if s != [] && s[0] == '/' && |s| > 1 && s[1] == '/' {
      CollapseHead(s[1..]);
    }
  }

  lemma {:induction false} CollapseNoDoubleSlash(s: string)
    ensures NoDoubleSlash(CollapseSlashes(s))
  {
    if s == [] {
    } else if s[0] == '/' && |s| > 1 && s[1] == '/' {
      CollapseNoDoubleSlash(s[1..]);
    } else {
      CollapseNoDoubleSlash(s[1..]);
      CollapseHead(s[1..]);
      var r := CollapseSlashes(s);
      assert r == [s[0]] + CollapseSlashes(s[1..]);
      assert forall i :: 1 <= i < |r| - 1 ==> r[i] == CollapseSlashes(s[1..])[i - 1];
    }
  }

  /** A path without double slashes is its own collapse. */
  lemma {:induction false} CollapseIdentity(s: string)
    requires NoDoubleSlash(s)
    ensures CollapseSlashes(s) == s
  {
    if s != [] {
      var t := s[1..];
      assert NoDoubleSlash(t) by {
        forall i | 0 <= i < |t| - 1
          ensures !(t[i] == '/' && t[i + 1] == '/')
        {
          assert t[i] == s[i + 1] && t[i + 1] == s[i + 2];
        }
      }
      CollapseIdentity(t);
    }
  }

  /** Normalising a normalised path changes nothing. */
  lemma NormalizeIdempotent(s: string)
    ensures NormalizePath(NormalizePath(s)) == NormalizePath(s)
  {
    var r := NormalizePath(s);
    CollapseIdentity(r);
    assert CollapseSlashes(r) == r;
    if r == "/" {
      assert DropTrailingSlash(r) == [];
    } else {
      assert DropTrailingSlash(r) == r;
    }
  }

  /** The characters other than `/`, in order. */
  function Segments(s: string): string
  {
    if s == [] then [] else (if s[0] == '/' then [] else [s[0]]) + Segments(s[1..])
  }

  lemma {:induction false} SegmentsAppend(a: string, b: string)
    ensures Segments(a + b) == Segments(a) + Segments(b)
  {
    if a != [] {
      var s := a + b;
      assert s[0] == a[0] && s[1..] == a[1..] + b;
      SegmentsAppend(a[1..], b);
      var h: string := if a[0] == '/' then [] else [a[0]];
      assert Segments(s) == h + Segments(a[1..] + b);
      assert Segments(a) == h + Segments(a[1..]);
    } else {
      assert a + b == b;
    }
  }

  lemma {:induction false} CollapseKeepsSegments(s: string)
    ensures Segments(CollapseSlashes(s)) == Segments(s)
  {
    if s != [] {
      CollapseKeepsSegments(s[1..]);
      if !(s[0] == '/' && |s| > 1 && s[1] == '/') {
        SegmentsAppend([s[0]], CollapseSlashes(s[1..]));
      }
    }
  }

  /** Normalisation only removes slashes: every other character is kept, in order. */
  lemma NormalizeKeepsSegments(s: string)
    ensures Segments(NormalizePath(s)) == Segments(s)
  {
    CollapseKeepsSegments(s);
    var c := CollapseSlashes(s);
    if c != [] && c[|c| - 1] == '/' {
      assert c == c[..|c| - 1] + "/";
      SegmentsAppend(c[..|c| - 1], "/");
    }
  }
}
