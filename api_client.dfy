/** The HTTP client: URL building from a template and the reduction of a
    request's outcome to either the response text or an in-band error value.
    The transport itself (connection, headers, reading the socket) is a
    function parameter that maps a request to its outcome. */
module ApiClient {
  import opened Wrappers
  import opened Json

  // ---------------------------------------------------------------------
  // Python's str.replace, split and join on strings
  // ---------------------------------------------------------------------

  /** `pat` occurs in `s` starting at index `i`. */
  predicate OccursAt(s: string, pat: string, i: int)
  {
    0 <= i && i + |pat| <= |s| && s[i..i + |pat|] == pat
  }

  predicate Occurs(s: string, pat: string)
  {
    exists i | 0 <= i <= |s| :: OccursAt(s, pat, i)
  }

  /** `s.replace(pat, rep)`: scans left to right and replaces every
      non-overlapping occurrence of the (non-empty) pattern. */
  function ReplaceAll(s: string, pat: string, rep: string): (r: string)
    requires pat != []
    ensures |s| < |pat| ==> r == s
    ensures rep == pat ==> r == s
    decreases |s|
  {
    if |s| < |pat| then s
    else if s[..|pat|] == pat then
      assert s == s[..|pat|] + s[|pat|..];
      rep + ReplaceAll(s[|pat|..], pat, rep)
    else
      assert s == [s[0]] + s[1..];
      [s[0]] + ReplaceAll(s[1..], pat, rep)
  }

  /** `s.split(pat)`: the pieces between the occurrences, in order. */
  function Split(s: string, pat: string): (parts: seq<string>)
    requires pat != []
    ensures |parts| >= 1 && parts[0] <= s
    decreases |s|
  {
    if |s| < |pat| then [s]
    else if s[..|pat|] == pat then [""] + Split(s[|pat|..], pat)
    else
      var r := Split(s[1..], pat);
      [[s[0]] + r[0]] + r[1..]
  }

  /** `sep.join(parts)` for a non-empty list of parts. */
  function Join(parts: seq<string>, sep: string): string
    requires |parts| >= 1
  {
    if |parts| == 1 then parts[0] else parts[0] + sep + Join(parts[1..], sep)
  }

  lemma {:induction false} ReplaceIsSplitThenJoin(s: string, pat: string, rep: string)
    requires pat != []
    ensures ReplaceAll(s, pat, rep) == Join(Split(s, pat), rep)
    decreases |s|
  {
    if |s| < |pat| {
    } else if s[..|pat|] == pat {
      var p := Split(s[|pat|..], pat);
      ReplaceIsSplitThenJoin(s[|pat|..], pat, rep);
      JoinCons("", p, rep);
    } else {
      var r := Split(s[1..], pat);
      ReplaceIsSplitThenJoin(s[1..], pat, rep);
      JoinExtendFirst(s[0], r, rep);
    }
  }

  lemma JoinCons(first: string, rest: seq<string>, sep: string)
    requires |rest| >= 1
    ensures Join([first] + rest, sep) == first + sep + Join(rest, sep)
  {
    assert ([first] + rest)[1..] == rest;
  }

  lemma JoinExtendFirst(c: char, parts: seq<string>, sep: string)
    requires |parts| >= 1
    ensures Join([[c] + parts[0]] + parts[1..], sep) == [c] + Join(parts, sep)
  {
    var q := [[c] + parts[0]] + parts[1..];
    assert q[1..] == parts[1..];
    if |parts| > 1 {
      assert Join(q, sep) == ([c] + parts[0]) + sep + Join(parts[1..], sep);
    }
  }

  lemma {:induction false} SplitThenJoinRestores(s: string, pat: string)
    requires pat != []
    ensures Join(Split(s, pat), pat) == s
    decreases |s|
  {
    if |s| < |pat| {
    } else if s[..|pat|] == pat {
      var p := Split(s[|pat|..], pat);
      SplitThenJoinRestores(s[|pat|..], pat);
      JoinCons("", p, pat);
      assert s == s[..|pat|] + s[|pat|..];
    } else {
      var r := Split(s[1..], pat);
      SplitThenJoinRestores(s[1..], pat);
      JoinExtendFirst(s[0], r, pat);
      assert s == [s[0]] + s[1..];
    }
  }

  /** An occurrence past the first character of `[c] + t` is one in `t`. */
  lemma OccursAfterHead(c: char, t: string, pat: string, i: int)
    requires OccursAt([c] + t, pat, i) && i > 0
    ensures OccursAt(t, pat, i - 1)
  {
    assert ([c] + t)[i..i + |pat|] == t[i - 1..i - 1 + |pat|];
  }

  lemma {:induction false} SplitPiecesAreFree(s: string, pat: string)
    requires pat != []
    ensures forall j :: 0 <= j < |Split(s, pat)| ==> !Occurs(Split(s, pat)[j], pat)
    decreases |s|
  {
    if |s| < |pat| {
      assert !Occurs(s, pat);
    } else if s[..|pat|] == pat {
      SplitPiecesAreFree(s[|pat|..], pat);
      assert !Occurs("", pat);
    } else {
      SplitPiecesAreFree(s[1..], pat);
      var r := Split(s[1..], pat);
      var first := [s[0]] + r[0];
      assert first <= s;
      if Occurs(first, pat) {
        var i :| 0 <= i <= |first| && OccursAt(first, pat, i);
        if i > 0 {
          OccursAfterHead(s[0], r[0], pat, i);
        }
        assert false;
      }
      assert forall j :: 1 <= j < |r| ==> ([first] + r[1..])[j] == r[j];
    }
  }

  /** `s.replace(pat, rep)` replaces EVERY occurrence: cutting `s` at the
      occurrences gives pieces that hold none, that reassemble into `s`, and
      whose join with `rep` is the result. */
  lemma ReplaceReplacesEveryOccurrence(s: string, pat: string, rep: string)
    requires pat != []
    ensures var parts := Split(s, pat);
      && Join(parts, pat) == s
      && (forall j :: 0 <= j < |parts| ==> !Occurs(parts[j], pat))
      && ReplaceAll(s, pat, rep) == Join(parts, rep)
  {
    SplitThenJoinRestores(s, pat);
    SplitPiecesAreFree(s, pat);
    ReplaceIsSplitThenJoin(s, pat, rep);
  }

  lemma {:induction false} ReplaceWithoutOccurrence(s: string, pat: string, rep: string)
    requires pat != [] && !Occurs(s, pat)
    ensures ReplaceAll(s, pat, rep) == s
    decreases |s|
  {
    if |s| < |pat| {
    } else {
      assert !OccursAt(s, pat, 0);
      forall i | OccursAt(s[1..], pat, i) ensures OccursAt(s, pat, i + 1) {
        assert s[1..][i..i + |pat|] == s[i + 1..i + 1 + |pat|];
      }
      ReplaceWithoutOccurrence(s[1..], pat, rep);
      assert s == [s[0]] + s[1..];
    }
  }

  /** A prefix free of the pattern's first character passes through a
      replacement untouched. */
  lemma {:induction false} ReplaceSkipsFreePrefix(p: string, t: string, pat: string, rep: string)
    requires pat != [] && pat[0] !in p
    ensures ReplaceAll(p + t, pat, rep) == p + ReplaceAll(t, pat, rep)
    decreases |p|
  {
    if p != [] {
      var s := p + t;
      assert s[0] == p[0] && s[1..] == p[1..] + t;
      if |s| < |pat| {
        assert t == s[|p|..];
      } else {
        assert s[..|pat|][0] != pat[0];
        ReplaceSkipsFreePrefix(p[1..], t, pat, rep);
        assert [p[0]] + p[1..] == p;
      }
    } else {
      assert p + t == t;
    }
  }

  /** The pattern alone is replaced whole. */
  lemma ReplaceWhole(pat: string, rep: string)
    requires pat != []
    ensures ReplaceAll(pat, pat, rep) == rep
  {
    assert pat[..|pat|] == pat && pat[|pat|..] == [];
    assert ReplaceAll([], pat, rep) == [] && rep + [] == rep;
  }

  // ---------------------------------------------------------------------
  // _build_url
  // ---------------------------------------------------------------------

  /** A parameter dict's items in insertion order, each value already
      rendered by `str()`. An empty sequence stands for both None and {}. */
  type Params = seq<(string, string)>

  function Placeholder(key: string): (p: string)
    ensures |p| >= 2 && p[0] == '{'
  {
    "{" + key + "}"
  }

  /** The path substitutions applied one after another to the running URL. */
  function SubstituteAll(url: string, params: Params): string
    decreases |params|
  {
    if params == [] then url
    else SubstituteAll(ReplaceAll(url, Placeholder(params[0].0), params[0].1), params[1..])
  }

  function Pair(kv: (string, string)): string
  {
    kv.0 + "=" + kv.1
  }

  function Pairs(query: Params): (r: seq<string>)
    ensures |r| == |query|
  {
    seq(|query|, i requires 0 <= i < |query| => Pair(query[i]))
  }

  /** `"&".join(f"{key}={value}" ...)`, without any percent-encoding. */
  function QueryString(query: Params): string
    requires query != []
  {
    Join(Pairs(query), "&")
  }

  /** The URL `_build_url` returns: path parameters win, otherwise a query
      string is appended, otherwise the template is used as it is. */
  function UrlFor(template: string, pathParams: Params, queryParams: Params): (url: string)
    ensures pathParams != [] ==> url == SubstituteAll(template, pathParams)
    ensures pathParams == [] && queryParams != [] ==>
      && |url| > |template| && url[..|template|] == template && url[|template|] == '?'
      && url[|template| + 1..] == QueryString(queryParams)
    ensures pathParams == [] && queryParams == [] ==> url == template
  {
    if pathParams != [] then SubstituteAll(template, pathParams)
    else if queryParams != [] then template + "?" + QueryString(queryParams)
    else template
  }

  /** `_build_url`, updating the URL in a loop over the path parameters. */
  method BuildUrl(template: string, pathParams: Params, queryParams: Params) returns (url: string)
    ensures url == UrlFor(template, pathParams, queryParams)
  {
    if pathParams != [] {
      url := template;
      var i := 0;
      while i < |pathParams|
        invariant 0 <= i <= |pathParams|
        invariant SubstituteAll(url, pathParams[i..]) == SubstituteAll(template, pathParams)
      {
        var (key, value) := pathParams[i];
        assert pathParams[i..][1..] == pathParams[i + 1..];
        url := ReplaceAll(url, Placeholder(key), value);
        i := i + 1;
      }
    } else if queryParams != [] {
      url := template + "?" + QueryString(queryParams);
    } else {
      url := template;
    }
  }

  /** Substitutions happen in insertion order: applying a dict's items is
      applying its first items, then the rest, to the running string. */
  lemma {:induction false} SubstitutionInOrder(url: string, first: Params, rest: Params)
    ensures SubstituteAll(url, first + rest) == SubstituteAll(SubstituteAll(url, first), rest)
    decreases |first|
  {
    if first == [] {
      assert first + rest == rest;
    } else {
      var next := ReplaceAll(url, Placeholder(first[0].0), first[0].1);
      assert (first + rest)[0] == first[0];
      assert (first + rest)[1..] == first[1..] + rest;
      assert SubstituteAll(url, first + rest) == SubstituteAll(next, first[1..] + rest);
      assert SubstituteAll(url, first) == SubstituteAll(next, first[1..]);
      SubstitutionInOrder(next, first[1..], rest);
    }
  }

  /** A placeholder with no matching key is left untouched: if no key's
      placeholder occurs, the URL comes back unchanged. */
  lemma {:induction false} UnmatchedPlaceholdersStay(url: string, params: Params)
    requires forall j :: 0 <= j < |params| ==> !Occurs(url, Placeholder(params[j].0))
    ensures SubstituteAll(url, params) == url
    decreases |params|
  {
    if params != [] {
      ReplaceWithoutOccurrence(url, Placeholder(params[0].0), params[0].1);
      UnmatchedPlaceholdersStay(url, params[1..]);
    }
  }

  /** No brace inside a key. */
  predicate BraceFree(k: string)
  {
    '{' !in k && '}' !in k
  }

  /** Two placeholders of brace-free keys that start at the same place in a
      string are the same placeholder. */
  lemma PlaceholdersAlign(s: string, k: string, z: string, i: int)
    requires BraceFree(k) && BraceFree(z)
    requires OccursAt(s, Placeholder(k), i) && OccursAt(s, Placeholder(z), i)
    ensures k == z
  {
    var pk, pz := Placeholder(k), Placeholder(z);
    assert s[i + |k| + 1] == '}' by { assert pk[|k| + 1] == '}'; }
    assert s[i + |z| + 1] == '}' by { assert pz[|z| + 1] == '}'; }
    assert forall j | i + 1 <= j <= i + |z| :: s[j] == z[j - i - 1] != '}';
    assert forall j | i + 1 <= j <= i + |k| :: s[j] == k[j - i - 1] != '}';
    assert forall j | 0 <= j < |k| :: k[j] == pk[j + 1] == s[i + j + 1] == pz[j + 1] == z[j];
  }

  /** An occurrence of `{z}` that starts inside an occurrence of `{k}`
      starts where it does: a placeholder's only `{` is its first character. */
  lemma PlaceholderStartsAtBrace(s: string, k: string, j: int, i: int)
    requires BraceFree(k) && OccursAt(s, Placeholder(k), j)
    requires 0 <= i < |s| && s[i] == '{' && j <= i < j + |Placeholder(k)|
    ensures i == j
  {
    assert s[i] == s[j..j + |Placeholder(k)|][i - j];
  }

  /** An occurrence survives being prefixed. */
  lemma OccursAfterPrefix(p: string, t: string, pat: string, m: int)
    requires OccursAt(t, pat, m)
    ensures OccursAt(p + t, pat, |p| + m)
  {
    assert (p + t)[|p| + m..|p| + m + |pat|] == t[m..m + |pat|];
  }

  /** An occurrence past index `n` is one in the suffix from `n`. */
  lemma OccursInSuffix(s: string, n: nat, pat: string, i: int)
    requires n <= i && OccursAt(s, pat, i)
    ensures OccursAt(s[n..], pat, i - n)
  {
    assert s[n..][i - n..i - n + |pat|] == s[i..i + |pat|];
  }

  /** Replacing `{k}` keeps every `{z}` of another brace-free key: the two
      placeholders can never overlap. */
  lemma {:induction false} ReplaceKeepsOtherPlaceholder(s: string, k: string, v: string, z: string, i: int)
    requires BraceFree(k) && BraceFree(z) && k != z
    requires OccursAt(s, Placeholder(z), i)
    ensures Occurs(ReplaceAll(s, Placeholder(k), v), Placeholder(z))
    decreases |s|
  {
    var pk, pz := Placeholder(k), Placeholder(z);
    if |s| < |pk| {
      assert OccursAt(ReplaceAll(s, pk, v), pz, i);
    } else if s[..|pk|] == pk {
      ReplaceKeepsAfterMatch(s, k, v, z, i);
    } else if i > 0 {
      OccursInSuffix(s, 1, pz, i);
      ReplaceKeepsOtherPlaceholder(s[1..], k, v, z, i - 1);
      var t := ReplaceAll(s[1..], pk, v);
      var m :| 0 <= m <= |t| && OccursAt(t, pz, m);
      OccursAfterPrefix([s[0]], t, pz, m);
    } else {
      ReplaceKeepsLeadingPlaceholder(s, k, v, z);
    }
  }

  /** The match case: `{z}` cannot start inside the `{k}` matched at 0, so
      it lies in the rest, which the replacement recurses on. */
  lemma {:induction false} ReplaceKeepsAfterMatch(s: string, k: string, v: string, z: string, i: int)
    requires BraceFree(k) && BraceFree(z) && k != z
    requires OccursAt(s, Placeholder(z), i)
    requires |s| >= |Placeholder(k)| && s[..|Placeholder(k)|] == Placeholder(k)
    ensures Occurs(ReplaceAll(s, Placeholder(k), v), Placeholder(z))
    decreases |s|, 0
  {
    var pk, pz := Placeholder(k), Placeholder(z);
    assert OccursAt(s, pk, 0);
    if i < |pk| {
      assert s[i] == '{' by { assert s[i..i + |pz|][0] == pz[0]; }
      PlaceholderStartsAtBrace(s, k, 0, i);
      PlaceholdersAlign(s, k, z, 0);
    }
    var t := s[|pk|..];
    OccursInSuffix(s, |pk|, pz, i);
    ReplaceKeepsOtherPlaceholder(t, k, v, z, i - |pk|);
    var m :| 0 <= m <= |ReplaceAll(t, pk, v)| && OccursAt(ReplaceAll(t, pk, v), pz, m);
    OccursAfterPrefix(v, ReplaceAll(t, pk, v), pz, m);
  }

  /** `{z}` opens the string: its tail holds no `{` and passes through. */
  lemma ReplaceKeepsLeadingPlaceholder(s: string, k: string, v: string, z: string)
    requires BraceFree(k) && BraceFree(z) && k != z
    requires OccursAt(s, Placeholder(z), 0)
    requires !(|s| >= |Placeholder(k)| && s[..|Placeholder(k)|] == Placeholder(k))
    ensures Occurs(ReplaceAll(s, Placeholder(k), v), Placeholder(z))
  {
    var pk, pz := Placeholder(k), Placeholder(z);
    var tail := z + "}";
    var rest := s[|pz|..];
    assert s[..|pz|] == pz;
    assert s[1..] == tail + rest;
    ReplaceSkipsFreePrefix(tail, rest, pk, v);
    if |s| >= |pk| {
      assert ReplaceAll(s, pk, v) == [s[0]] + ReplaceAll(s[1..], pk, v);
      assert ReplaceAll(s, pk, v) == pz + ReplaceAll(rest, pk, v);
    } else {
      assert ReplaceAll(s, pk, v) == s;
    }
    assert OccursAt(ReplaceAll(s, pk, v), pz, 0);
  }

  /** A placeholder whose key is not among the path parameters survives the
      substitution of all the others (when no key has a brace in it). */
  lemma {:induction false} UnmatchedPlaceholderSurvives(url: string, params: Params, z: string)
    requires BraceFree(z) && Occurs(url, Placeholder(z))
    requires forall j :: 0 <= j < |params| ==> BraceFree(params[j].0) && params[j].0 != z
    ensures Occurs(SubstituteAll(url, params), Placeholder(z))
    decreases |params|
  {
    if params != [] {
      var i :| 0 <= i <= |url| && OccursAt(url, Placeholder(z), i);
      ReplaceKeepsOtherPlaceholder(url, params[0].0, params[0].1, z, i);
      UnmatchedPlaceholderSurvives(ReplaceAll(url, Placeholder(params[0].0), params[0].1), params[1..], z);
    }
  }

  /** `{z}` with no key for it stays while `{x}` is filled in. */
  lemma UnmatchedPlaceholderExample()
    ensures SubstituteAll("/a/{x}/{z}", [("x", "1")]) == "/a/1/{z}"
  {
    var p, tx := "/a/", Placeholder("x");
    assert tx == "{x}";
    assert "/a/{x}/{z}" == p + (tx + "/{z}");
    ReplaceSkipsFreePrefix(p, tx + "/{z}", tx, "1");
    assert ReplaceAll(tx + "/{z}", tx, "1") == "1" + ReplaceAll("/{z}", tx, "1") by {
      assert (tx + "/{z}")[..|tx|] == tx;
      assert (tx + "/{z}")[|tx|..] == "/{z}";
    }
    assert ReplaceAll("/{z}", tx, "1") == "/{z}" by {
      ReplaceSkipsFreePrefix("/", "{z}", tx, "1");
      assert "/{z}" == "/" + "{z}";
      assert ReplaceAll("{z}", tx, "1") == "{z}" by {
        assert "{z}"[..3][1] != tx[1];
        assert ReplaceAll("{z}", tx, "1") == ['{'] + ReplaceAll("z}", tx, "1");
      }
    }
    assert [("x", "1")][1..] == [];
  }

  lemma OccurrenceStartsWithBrace(s: string, pat: string)
    requires |pat| >= 1 && pat[0] == '{' && '{' !in s
    ensures !Occurs(s, pat)
  {
    forall i | 0 <= i <= |s| && OccursAt(s, pat, i) ensures false {
    }
  }

  /** A template without any `{` comes back unchanged from path substitution. */
  lemma TemplateWithoutBracesUnchanged(template: string, params: Params)
    requires '{' !in template
    ensures SubstituteAll(template, params) == template
  {
    forall j | 0 <= j < |params| ensures !Occurs(template, Placeholder(params[j].0)) {
      OccurrenceStartsWithBrace(template, Placeholder(params[j].0));
    }
    UnmatchedPlaceholdersStay(template, params);
  }

  /** A value that contains a LATER key's placeholder has it replaced too,
      while an earlier key's placeholder inside a value survives. */
  lemma SubstitutionSeesEarlierValues()
    ensures SubstituteAll("/a/{x}", [("x", "{y}"), ("y", "1")]) == "/a/1"
    ensures SubstituteAll("/a/{x}", [("y", "1"), ("x", "{y}")]) == "/a/{y}"
  {
    var p := "/a/";
    var tx := Placeholder("x");
    var ty := Placeholder("y");
    assert tx == "{x}" && ty == "{y}";
    assert "/a/{x}" == p + tx && "/a/{y}" == p + ty;
    ReplaceSkipsFreePrefix(p, tx, tx, ty);
    ReplaceWhole(tx, ty);
    ReplaceSkipsFreePrefix(p, ty, ty, "1");
    ReplaceWhole(ty, "1");
    ReplaceSkipsFreePrefix(p, tx, ty, "1");
    assert ReplaceAll(tx, ty, "1") == tx by {
      assert tx[..|ty|] != ty;
      assert ReplaceAll(tx, ty, "1") == [tx[0]] + ReplaceAll(tx[1..], ty, "1");
    }
    assert [("x", "{y}"), ("y", "1")][1..] == [("y", "1")];
    assert [("y", "1"), ("x", "{y}")][1..] == [("x", "{y}")];
  }

  // ---------------------------------------------------------------------
  // The query string can be cut back into its pairs when no key or value
  // holds '&'; nothing is escaped, so a value holding '&' is ambiguous.
  // ---------------------------------------------------------------------

  lemma {:induction false} SplitWithoutSeparator(p: string, c: char)
    requires c !in p
    ensures Split(p, [c]) == [p]
    decreases |p|
  {
    if |p| >= 1 {
      assert p[..1] != [c] by { assert p[..1][0] == p[0] != c; }
      assert c !in p[1..];
      SplitWithoutSeparator(p[1..], c);
      assert [p[0]] + p[1..] == p;
    }
  }

  lemma {:induction false} SplitAtFirstSeparator(p: string, c: char, rest: string)
    requires c !in p
    ensures Split(p + [c] + rest, [c]) == [p] + Split(rest, [c])
    decreases |p|
  {
    var s := p + [c] + rest;
    if p == [] {
      assert s[..1] == [c] && s[1..] == rest;
    } else {
      assert s[..1] != [c] by { assert s[..1][0] == p[0] != c; }
      assert s[1..] == p[1..] + [c] + rest;
      assert c !in p[1..];
      SplitAtFirstSeparator(p[1..], c, rest);
      assert [p[0]] + p[1..] == p;
    }
  }

  lemma {:induction false} SplitUndoesJoin(parts: seq<string>, c: char)
    requires |parts| >= 1
    requires forall j :: 0 <= j < |parts| ==> c !in parts[j]
    ensures Split(Join(parts, [c]), [c]) == parts
    decreases |parts|
  {
    if |parts| == 1 {
      SplitWithoutSeparator(parts[0], c);
    } else {
      SplitUndoesJoin(parts[1..], c);
      SplitAtFirstSeparator(parts[0], c, Join(parts[1..], [c]));
      assert [parts[0]] + parts[1..] == parts;
    }
  }

  /** Splitting the query string on '&' gives back the `key=value` pairs in
      insertion order, provided no key or value contains '&'. */
  lemma QueryStringSplitsIntoPairs(query: Params)
    requires query != []
    requires forall j :: 0 <= j < |query| ==> '&' !in query[j].0 && '&' !in query[j].1
    ensures Split(QueryString(query), "&") == Pairs(query)
  {
    var ps := Pairs(query);
    forall j | 0 <= j < |ps| ensures '&' !in ps[j] {
      assert ps[j] == query[j].0 + "=" + query[j].1;
    }
    SplitUndoesJoin(ps, '&');
  }

  /** Values are not percent-encoded, so two different query dicts can give
      the same URL. */
  lemma QueryValuesAreNotEscaped()
    ensures UrlFor("/api", [], [("a", "1&b=2")]) == UrlFor("/api", [], [("a", "1"), ("b", "2")])
  {
    var one := Pairs([("a", "1&b=2")]);
    var two := Pairs([("a", "1"), ("b", "2")]);
    assert one[0] == "a=1&b=2";
    assert two[0] == "a=1" && two[1] == "b=2";
    assert two[1..] == ["b=2"];
    assert Join(two, "&") == "a=1" + "&" + "b=2";
  }

  // ---------------------------------------------------------------------
  // Requests and the classification of their outcome
  // ---------------------------------------------------------------------

  /** http.client only accepts three-digit status codes. */
  type StatusCode = n: int | 100 <= n <= 999 witness 200

  /** The response text: `response.read().decode("utf-8")`, which may raise. */
  datatype Body = Text(text: string) | Undecodable(error: string)

  /** What the transport did with one request: a response, or an exception
      (connection refused, timeout, ...) carrying `str(e)`. */
  datatype Outcome =
    | Response(status: StatusCode, reason: string, body: Body)
    | Raised(error: string)

  /** The string a request method returns: the response text, or
      `json.dumps({"error": message})`. */
  datatype Reply = BodyText(text: string) | ErrorReply(message: string)

  datatype Request = Request(verb: string, url: string, payload: Option<Json>)

  function Digit(d: int): char
    requires 0 <= d <= 9
  {
    "0123456789"[d]
  }

  /** `str(status)` for a three-digit status. */
  function StatusText(status: StatusCode): (t: string)
    ensures |t| == 3
  {
    [Digit(status / 100), Digit(status / 10 % 10), Digit(status % 10)]
  }

  /** f"HTTP {status}: {reason}" */
  function HttpError(status: StatusCode, reason: string): string
  {
    "HTTP " + StatusText(status) + ": " + reason
  }

  /** Reads the status back out of an HTTP error message. */
  function StatusOf(message: string): int
    requires |message| >= 8
  {
    var d := (i: int) requires 5 <= i < 8 => (message[i] as int) - ('0' as int);
    d(5) * 100 + d(6) * 10 + d(7)
  }

  lemma HttpErrorNamesStatus(status: StatusCode, reason: string)
    ensures StatusOf(HttpError(status, reason)) == status
  {
    var m := HttpError(status, reason);
    var a, b, c := status / 100, status / 10 % 10, status % 10;
    assert m[5] == Digit(a) && m[6] == Digit(b) && m[7] == Digit(c);
    assert forall d | 0 <= d <= 9 :: (Digit(d) as int) - ('0' as int) == d;
    assert status == a * 100 + b * 10 + c;
  }

  /** The shared shape of both request methods: a response whose status is
      accepted yields its decoded text, any other status an HTTP error value,
      and every exception an error value holding its message. */
  function Classify(o: Outcome, accepted: set<int>): (r: Reply)
    ensures r.BodyText? <==> o.Response? && o.status in accepted && o.body.Text?
    ensures r.BodyText? ==> r.text == o.body.text
    ensures o.Raised? ==> r == ErrorReply(o.error)
    ensures o.Response? && o.status !in accepted ==> r == ErrorReply(HttpError(o.status, o.reason))
    ensures o.Response? && o.status in accepted && o.body.Undecodable? ==> r == ErrorReply(o.body.error)
  {
    match o
    case Raised(e) => ErrorReply(e)
    case Response(status, reason, body) =>
      if status in accepted then
        match body
        case Text(t) => BodyText(t)
        case Undecodable(e) => ErrorReply(e)
      else ErrorReply(HttpError(status, reason))
  }

  function ClassifyGet(o: Outcome): Reply
  {
    Classify(o, {200})
  }

  function ClassifyWithBody(o: Outcome): Reply
  {
    Classify(o, {200, 201})
  }

  /** GET accepts only 200 where the body-carrying requests also accept 201:
      the two agree on every outcome except a 201 response. */
  lemma GetIsStricterThanWithBody(o: Outcome)
    ensures !(o.Response? && o.status == 201) ==> ClassifyGet(o) == ClassifyWithBody(o)
    ensures o.Response? && o.status == 201 && o.body.Text? ==>
      ClassifyGet(o) == ErrorReply(HttpError(201, o.reason)) && ClassifyWithBody(o) == BodyText(o.body.text)
    ensures ClassifyGet(o).BodyText? ==> ClassifyWithBody(o) == ClassifyGet(o)
  {
  }

  /** `send_get_request`: build the URL, issue one GET, classify the outcome. */
  method SendGetRequest(transport: Request -> Outcome, template: string, pathParams: Params, queryParams: Params)
    returns (reply: Reply)
    ensures reply == ClassifyGet(transport(Request("GET", UrlFor(template, pathParams, queryParams), None)))
  {
    var url := BuildUrl(template, pathParams, queryParams);
    var outcome := transport(Request("GET", url, None));
    reply := ClassifyGet(outcome);
  }

  /** `_send_request_with_body`: one request carrying the JSON payload. */
  function SendRequestWithBody(transport: Request -> Outcome, verb: string, url: string, payload: Json): (r: Reply)
    ensures var o := transport(Request(verb, url, Some(payload)));
      && (r.BodyText? <==> o.Response? && (o.status == 200 || o.status == 201) && o.body.Text?)
      && (r.BodyText? ==> r.text == o.body.text)
      && (o.Raised? ==> r == ErrorReply(o.error))
      && (o.Response? && o.status != 200 && o.status != 201 ==> r == ErrorReply(HttpError(o.status, o.reason)))
      && (o.Response? && (o.status == 200 || o.status == 201) && o.body.Undecodable? ==> r == ErrorReply(o.body.error))
  {
    ClassifyWithBody(transport(Request(verb, url, Some(payload))))
  }

  function SendPostRequest(transport: Request -> Outcome, url: string, payload: Json): Reply
  {
    SendRequestWithBody(transport, "POST", url, payload)
  }

  function SendPatchRequest(transport: Request -> Outcome, url: string, payload: Json): Reply
  {
    SendRequestWithBody(transport, "PATCH", url, payload)
  }

  /** POST and PATCH issue the same request apart from the verb: against a
      transport that answers both alike they return the same value, and each
      returns exactly what the transport answered to its own request. */
  lemma PostAndPatchDifferOnlyInVerb(transport: Request -> Outcome, url: string, payload: Json)
    ensures SendPostRequest(transport, url, payload) == ClassifyWithBody(transport(Request("POST", url, Some(payload))))
    ensures SendPatchRequest(transport, url, payload) == ClassifyWithBody(transport(Request("PATCH", url, Some(payload))))
    ensures transport(Request("POST", url, Some(payload))) == transport(Request("PATCH", url, Some(payload))) ==>
      SendPostRequest(transport, url, payload) == SendPatchRequest(transport, url, payload)
  {
  }
}
