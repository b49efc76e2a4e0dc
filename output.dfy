/** The registry of output formats (pkg/output/util.go). */
module OutputFormat {

  const OutputFormats: seq<string> := ["json", "yaml"]

  /** The specification of `Has`: membership in the registry. */
  predicate Known(format: string) {
    format in OutputFormats
  }

  /** `Get`: the registry, in order. */
  function Get(): (r: seq<string>)
    ensures r == ["json", "yaml"]
    ensures forall i :: 0 <= i < |r| ==> Known(r[i])
  {
    OutputFormats
  }

  /** `Has`: scans the registry and answers at the first exact match. The
      comparison is exact and case-sensitive, so "" and "JSON" are unknown. */
  method Has(format: string) returns (found: bool)
    ensures found == Known(format)
    ensures found <==> format == "json" || format == "yaml"
  {
    var i := 0;
    while i < |OutputFormats|
      invariant 0 <= i <= |OutputFormats|
      invariant forall j :: 0 <= j < i ==> OutputFormats[j] != format
    {
      if format == OutputFormats[i] {
        return true;
      }
      i := i + 1;
    }
    return false;
  }

  /** The elements of `xs` separated by `sep` (Go's strings.Join). */
  function Join(xs: seq<string>, sep: string): string
  {
    if |xs| == 0 then ""
    else if |xs| == 1 then xs[0]
    else Join(xs[..|xs| - 1], sep) + sep + xs[|xs| - 1]
  }

  function TotalLength(xs: seq<string>): nat
  {
    if xs == [] then 0 else TotalLength(xs[..|xs| - 1]) + |xs[|xs| - 1]|
  }

  /** A separator goes between neighbours and none after the last element:
      n elements carry n - 1 separators. */
  lemma {:induction false} JoinLength(xs: seq<string>, sep: string)
    requires |xs| >= 1
    ensures |Join(xs, sep)| == TotalLength(xs) + (|xs| - 1) * |sep|
  {
    if |xs| > 1 {
      JoinLength(xs[..|xs| - 1], sep);
      assert xs[..|xs| - 1][..|xs| - 2] == xs[..|xs| - 2];
      assert TotalLength(xs[..1]) == |xs[0]| by {
        assert xs[..1][..0] == [];
      }
    } else {
      assert xs[..0] == [];
    }
  }

  /** `FormatStrings`: "[" then the formats separated by ", " then "]". */
  method FormatStrings() returns (s: string)
    ensures s == "[" + Join(OutputFormats, ", ") + "]"
    ensures s == "[json, yaml]"
  {
    var b := "[";
    var i := 0;
    while i < |OutputFormats|
      invariant 0 <= i <= |OutputFormats|
      invariant b == "[" + Join(OutputFormats[..i], ", ") + (if 0 < i < |OutputFormats| then ", " else "")
    {
      var format := OutputFormats[i];
      assert OutputFormats[..i + 1][..i] == OutputFormats[..i];
      b := b + format;
      if i + 1 != |OutputFormats| {
        b := b + ", ";
      }
      i := i + 1;
    }
    assert OutputFormats[..|OutputFormats|] == OutputFormats;
    b := b + "]";
    s := b;
  }
}
