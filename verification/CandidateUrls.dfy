/** The ordered URL candidates of src/gateway/upstream.py. */
module CandidateUrls {

  predicate EndsWith(s: string, suffix: string) {
    |suffix| <= |s| && s[|s| - |suffix|..] == suffix
  }

  function RemoveSuffix(s: string, suffix: string): string {
    if EndsWith(s, suffix) then s[..|s| - |suffix|] else s
  }

  /** s.rstrip("/") */
  function RStrip(s: string): (r: string)
    ensures r <= s && !EndsWith(r, "/")
    ensures forall i :: |r| <= i < |s| ==> s[i] == '/'
  {
    if s != [] && s[|s| - 1] == '/' then RStrip(s[..|s| - 1]) else s
  }

  /** s.split("?")[0] */
  function BeforeQuery(s: string): (r: string)
    ensures r <= s && '?' !in r
  {
    if s == [] || s[0] == '?' then [] else [s[0]] + BeforeQuery(s[1..])
  }

  /** The transport rule: a path ending in /sse is Server-Sent Events, all others streamable HTTP. */
  predicate IsSse(url: string) {
    EndsWith(RStrip(BeforeQuery(url)), "/sse")
  }

  function Alternates(url: string): seq<string> {
    var normalised := RStrip(url);
    var base := RemoveSuffix(RemoveSuffix(normalised, "/sse"), "/mcp");
    if EndsWith(normalised, "/sse") then [base + "/sse/", base + "/sse"]
    else if EndsWith(normalised, "/mcp") then [base + "/mcp/", base + "/mcp"]
    else [base + "/mcp/", base + "/mcp", base + "/sse/", base + "/sse"]
  }

  /** Drop every element that already occurred earlier. */
  function FirstOccurrences(s: seq<string>): seq<string> {
    if s == [] then []
    else
      var init := FirstOccurrences(s[..|s| - 1]);
      if s[|s| - 1] in init then init else init + [s[|s| - 1]]
  }

  ghost predicate NoDuplicates<T>(s: seq<T>) {
    forall i, j :: 0 <= i < j < |s| ==> s[i] != s[j]
  }

  method Candidates(upstreamUrl: string) returns (ordered: seq<string>)
    ensures ordered == FirstOccurrences([upstreamUrl] + Alternates(upstreamUrl))
    ensures NoDuplicates(ordered)
    ensures 1 <= |ordered| <= 5 && ordered[0] == upstreamUrl
    ensures forall u :: u in ordered <==> u == upstreamUrl || u in Alternates(upstreamUrl)
  {
    var normalised := RStrip(upstreamUrl);
    var base := RemoveSuffix(RemoveSuffix(normalised, "/sse"), "/mcp");
    var alternates: seq<string>;
    if EndsWith(normalised, "/sse") {
      alternates := [base + "/sse/", base + "/sse"];
    } else if EndsWith(normalised, "/mcp") {
      alternates := [base + "/mcp/", base + "/mcp"];
    } else {
      alternates := [base + "/mcp/", base + "/mcp", base + "/sse/", base + "/sse"];
    }
    var probes := [upstreamUrl] + alternates;
    var seen: set<string> := {};
    ordered := [];
    for i := 0 to |probes|
      invariant ordered == FirstOccurrences(probes[..i])
      invariant forall u :: u in seen <==> u in ordered
    {
      assert probes[..i + 1][..i] == probes[..i];
      if probes[i] !in seen {
        seen := seen + {probes[i]};
        ordered := ordered + [probes[i]];
      }
    }
    assert probes[..|probes|] == probes;
    FirstOccurrencesFacts(probes);
  }

  lemma {:induction false} FirstOccurrencesFacts(s: seq<string>)
    ensures NoDuplicates(FirstOccurrences(s))
    ensures forall u :: u in FirstOccurrences(s) <==> u in s
    ensures |FirstOccurrences(s)| <= |s|
    ensures s != [] ==> FirstOccurrences(s) != [] && FirstOccurrences(s)[0] == s[0]
  {
    if s != [] {
      var init := s[..|s| - 1];
      FirstOccurrencesFacts(init);
      assert s == init + [s[|s| - 1]];
    }
  }

  /** The order of the probes is kept: of two candidates, the one probed first comes first. */
  lemma {:induction false} CandidatesKeepProbeOrder(s: seq<string>, i: nat, j: nat)
    requires i < j < |FirstOccurrences(s)|
    ensures exists k, m {:trigger s[k], s[m]} ::
              && 0 <= k < m < |s|
              && s[k] == FirstOccurrences(s)[i] && s[k] !in s[..k]
              && s[m] == FirstOccurrences(s)[j] && s[m] !in s[..m]
  {
    var init := s[..|s| - 1];
    FirstOccurrencesFacts(init);
    if j < |FirstOccurrences(init)| {
      CandidatesKeepProbeOrder(init, i, j);
      var k, m :| 0 <= k < m < |init|
                  && init[k] == FirstOccurrences(init)[i] && init[k] !in init[..k]
                  && init[m] == FirstOccurrences(init)[j] && init[m] !in init[..m];
      assert s[..k] == init[..k] && s[..m] == init[..m];
      assert s[k] == init[k] && s[m] == init[m];
    } else {
      var m := |s| - 1;
      assert s[..m] == init;
      var k := FirstIndex(init, FirstOccurrences(init)[i]);
      assert s[..k] == init[..k];
      assert s[k] == init[k] && s[m] == FirstOccurrences(s)[j];
    }
  }

  ghost function FirstIndex(s: seq<string>, u: string): (k: nat)
    requires u in s
    ensures k < |s| && s[k] == u && u !in s[..k]
  {
    if s[0] == u then 0 else
      assert u in s[1..];
      var k := FirstIndex(s[1..], u);
      assert s[..k + 1] == [s[0]] + s[1..][..k];
      k + 1
  }

  // ---------------------------------------------------------------------------------------------
  // One transport for a URL registered as /mcp or /sse
  // ---------------------------------------------------------------------------------------------

  lemma {:induction false} BeforeQueryAppend(x: string, tail: string)
    ensures '?' in x ==> BeforeQuery(x + tail) == BeforeQuery(x)
    ensures '?' !in x && '?' !in tail ==> BeforeQuery(x + tail) == x + tail
  {
    if x == [] {
      assert x + tail == tail;
      if '?' !in tail { NoQuery(tail); }
    } else {
      assert (x + tail)[1..] == x[1..] + tail;
      BeforeQueryAppend(x[1..], tail);
    }
  }

  lemma {:induction false} NoQuery(s: string)
    requires '?' !in s
    ensures BeforeQuery(s) == s
  {
    if s != [] { NoQuery(s[1..]); }
  }

  predicate Slashes(s: string) {
    forall i :: 0 <= i < |s| ==> s[i] == '/'
  }

  lemma {:induction false} RStripSlashes(x: string, tail: string)
    requires Slashes(tail) && !EndsWith(x, "/")
    ensures RStrip(x + tail) == x
  {
    if tail == [] {
      assert x + tail == x;
      if x != [] { assert x[|x| - 1..] == [x[|x| - 1]]; }
    } else {
      assert (x + tail)[..|x + tail| - 1] == x + tail[..|tail| - 1];
      RStripSlashes(x, tail[..|tail| - 1]);
    }
  }

  /** The transport of base + suffix + slashes: decided by the suffix, or by the path before a query in base. */
  lemma TransportOf(base: string, suffix: string, tail: string)
    requires '?' !in suffix && Slashes(tail) && suffix != [] && suffix[|suffix| - 1] != '/'
    ensures '?' in base ==> IsSse(base + suffix + tail) == IsSse(base)
    ensures '?' !in base ==> (IsSse(base + suffix + tail) <==> EndsWith(base + suffix, "/sse"))
  {
    assert base + suffix + tail == base + (suffix + tail);
    BeforeQueryAppend(base, suffix + tail);
    var u := base + suffix;
    assert u[|u| - 1..] == [suffix[|suffix| - 1]];
    RStripSlashes(u, tail);
  }

  lemma SameTransport(stem: string, base: string, suffix: string, tail: string, slashes: string)
    requires stem == base || stem == base + "/mcp"
    requires suffix == "/mcp" || suffix == "/sse"
    requires Slashes(tail) && Slashes(slashes)
    ensures IsSse(stem + suffix + tail) == IsSse(base + suffix + slashes)
    ensures '?' !in stem ==> (IsSse(stem + suffix + tail) <==> suffix == "/sse")
  {
    TransportOf(stem, suffix, tail);
    TransportOf(base, suffix, slashes);
    BeforeQueryAppend(base, "/mcp");
    EndsWithOwnSuffix(stem, suffix);
    EndsWithOwnSuffix(base, suffix);
  }

  lemma EndsWithOwnSuffix(x: string, suffix: string)
    requires suffix == "/mcp" || suffix == "/sse"
    ensures EndsWith(x + suffix, "/sse") <==> suffix == "/sse"
  {
    assert (x + suffix)[|x + suffix| - 4..] == suffix;
  }

  /** Every probe for a URL registered as /mcp or /sse is that suffix after one stem, then slashes. */
  lemma ProbeShapes(url: string, suffix: string) returns (stem: string, base: string, tail: string)
    requires suffix == "/mcp" || suffix == "/sse"
    requires EndsWith(RStrip(url), suffix)
    ensures stem == base || stem == base + "/mcp"
    ensures url == stem + suffix + tail && Slashes(tail)
    ensures Alternates(url) == [base + suffix + "/", base + suffix + ""]
  {
    var normalised := RStrip(url);
    stem, tail := normalised[..|normalised| - 4], url[|normalised|..];
    assert normalised == stem + suffix;
    EndsWithOwnSuffix(stem, suffix);
    if suffix == "/sse" {
      assert RemoveSuffix(normalised, "/sse") == stem;
      base := RemoveSuffix(stem, "/mcp");
      assert "/sse/" == suffix + "/";
    } else {
      assert RemoveSuffix(normalised, "/sse") == normalised;
      base := stem;
      assert "/mcp/" == suffix + "/";
    }
    assert base + suffix + "/" == base + (suffix + "/");
    assert base + suffix + "" == base + suffix;
  }

  lemma ShapesAgree(url: string, alternates: seq<string>, stem: string, base: string, suffix: string, tail: string)
    requires suffix == "/mcp" || suffix == "/sse"
    requires (stem == base || stem == base + "/mcp") && Slashes(tail)
    requires url == stem + suffix + tail
    requires alternates == [base + suffix + "/", base + suffix + ""]
    ensures IsSse(alternates[0]) == IsSse(alternates[1]) == IsSse(url)
    ensures '?' !in url ==> (IsSse(url) <==> suffix == "/sse")
  {
    SameTransport(stem, base, suffix, tail, "/");
    SameTransport(stem, base, suffix, tail, "");
    assert forall i :: 0 <= i < |stem| ==> url[i] == stem[i];
  }

  lemma CandidateIsProbe(url: string, alternates: seq<string>, u: string)
    requires |alternates| == 2 && u in FirstOccurrences([url] + alternates)
    ensures u == url || u == alternates[0] || u == alternates[1]
    ensures |FirstOccurrences([url] + alternates)| <= 3
  {
    FirstOccurrencesFacts([url] + alternates);
  }

  /** A URL registered as /mcp or /sse gets at most three candidates `u`, all of one transport. */
  lemma SingleTransport(url: string, suffix: string, u: string)
    requires suffix == "/mcp" || suffix == "/sse"
    requires EndsWith(RStrip(url), suffix)
    requires u in FirstOccurrences([url] + Alternates(url))
    ensures |FirstOccurrences([url] + Alternates(url))| <= 3
    ensures IsSse(u) == IsSse(url)
    ensures '?' !in url ==> (IsSse(url) <==> suffix == "/sse")
  {
    var stem, base, tail := ProbeShapes(url, suffix);
    ShapesAgree(url, Alternates(url), stem, base, suffix, tail);
    CandidateIsProbe(url, Alternates(url), u);
  }

  // ---------------------------------------------------------------------------------------------
  // The candidates, written out
  // ---------------------------------------------------------------------------------------------

  /** A URL without a suffix of its own probes streamable HTTP before Server-Sent Events, each with the slash first. */
  lemma PlainUrlProbes(base: string, tail: string)
    requires Slashes(tail) && (base == [] || base[|base| - 1] != '/')
    requires !EndsWith(base, "/sse") && !EndsWith(base, "/mcp")
    ensures Alternates(base + tail) == [base + "/mcp/", base + "/mcp", base + "/sse/", base + "/sse"]
  {
    if base != [] {
      assert base[|base| - 1..] == [base[|base| - 1]];
    }
    RStripSlashes(base, tail);
  }

  /** A URL registered under a suffix probes only that suffix, with the slash first; the other suffix below it is dropped for /sse. */
  lemma SuffixedUrlProbes(base: string, tail: string)
    requires Slashes(tail) && !EndsWith(base, "/mcp")
    ensures Alternates(base + "/mcp" + tail) == [base + "/mcp/", base + "/mcp"]
    ensures Alternates(base + "/sse" + tail) == [base + "/sse/", base + "/sse"]
    ensures Alternates(base + "/mcp" + "/sse" + tail) == [base + "/sse/", base + "/sse"]
  {
    StripsTo(base, "/mcp", tail);
    StripsTo(base, "/sse", tail);
    StripsTo(base + "/mcp", "/sse", tail);
    assert (base + "/mcp")[..|base|] == base && (base + "/sse")[..|base|] == base;
    assert (base + "/mcp" + "/sse")[..|base + "/mcp"|] == base + "/mcp";
    EndsWithOwnSuffix(base, "/mcp");
    EndsWithOwnSuffix(base, "/sse");
    EndsWithOwnSuffix(base + "/mcp", "/sse");
    assert (base + "/mcp")[|base + "/mcp"| - 4..] == "/mcp";
    assert (base + "/mcp" + "/sse")[|base + "/mcp" + "/sse"| - 4..] == "/sse";
  }

  lemma StripsTo(base: string, suffix: string, tail: string)
    requires Slashes(tail) && suffix != [] && suffix[|suffix| - 1] != '/'
    ensures RStrip(base + suffix + tail) == base + suffix
  {
    var u := base + suffix;
    assert u[|u| - 1..] == [suffix[|suffix| - 1]];
    RStripSlashes(u, tail);
  }

  lemma ThreeProbes(a: string, b: string, c: string)
    ensures FirstOccurrences([a, b, c])
            == [a] + (if b != a then [b] else []) + (if c != a && c != b then [c] else [])
  {
    assert [a, b, c][..2] == [a, b] && [a, b][..1] == [a] && [a][..0] == [];
    assert FirstOccurrences([a]) == [a];
    assert FirstOccurrences([a, b]) == [a] + (if b != a then [b] else []);
  }

  lemma TwoCandidates(url: string)
    ensures FirstOccurrences([url] + [url + "/", url]) == [url, url + "/"]
    ensures FirstOccurrences([url + "/"] + [url + "/", url]) == [url + "/", url]
  {
    assert [url] + [url + "/", url] == [url, url + "/", url];
    assert [url + "/"] + [url + "/", url] == [url + "/", url + "/", url];
    assert |url + "/"| != |url|;
    ThreeProbes(url, url + "/", url);
    ThreeProbes(url + "/", url + "/", url);
  }

  /** The alternates of such a URL, with or without the slash, are the same two. */
  lemma SuffixedUrlAlternates(base: string, suffix: string)
    requires !EndsWith(base, "/mcp") && (suffix == "/mcp" || suffix == "/sse")
    ensures Alternates(base + suffix) == [base + suffix + "/", base + suffix]
    ensures Alternates(base + suffix + "/") == [base + suffix + "/", base + suffix]
  {
    assert base + suffix + "" == base + suffix;
    if suffix == "/mcp" {
      assert base + "/mcp/" == base + "/mcp" + "/";
    } else {
      assert base + "/sse/" == base + "/sse" + "/";
    }
    SuffixedUrlProbes(base, "");
    SuffixedUrlProbes(base, "/");
  }

  /** The whole list for a URL registered under a suffix: as registered, then with or without the slash at its end. */
  lemma SuffixedUrlCandidates(base: string, suffix: string, url: string)
    requires !EndsWith(base, "/mcp") && (suffix == "/mcp" || suffix == "/sse") && url == base + suffix
    ensures FirstOccurrences([url] + Alternates(url)) == [url, url + "/"]
    ensures FirstOccurrences([url + "/"] + Alternates(url + "/")) == [url + "/", url]
  {
    SuffixedUrlAlternates(base, suffix);
    TwoCandidates(url);
  }
}
