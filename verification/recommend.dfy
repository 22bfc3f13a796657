/**
 The recommended vanity addresses the modal offers. Each is built from one
 of ten fixed patterns `p` (the random choice of pattern is a parameter):
 on EVM `"0x" + p + "0"*pad + ".." + p`, on other chains
 `p + "x"*pad + ".." + p`, where `pad` is `max(0, digits - |p|)`.
 */
module Recommend {

  import opened JsValues
  import opened JsStrings
  import opened Types

  datatype Pattern = Pattern(text: string, scarcity: bool)

  const Patterns: seq<Pattern> := [
    Pattern("888", true),
    Pattern("666", false),
    Pattern("ABAB", false),
    Pattern("000", false),
    Pattern("777", true),
    Pattern("8888", true),
    Pattern("ABCD", false),
    Pattern("1234", false),
    Pattern("6666", true),
    Pattern("0000", true)
  ]

  /** Number of recommendations in one batch. */
  const BatchSize: nat := 10

  lemma PatternsWellFormed()
    ensures forall i :: 0 <= i < |Patterns| ==> 3 <= |Patterns[i].text| <= 4
    ensures forall i, k :: 0 <= i < |Patterns| && 0 <= k < |Patterns[i].text| ==> IsUpperAlnum(Patterns[i].text[k])
  {
  }

  /** Every character of pattern number `choice` is a pattern character. */
  lemma PatternChars(choice: nat)
    requires choice < |Patterns|
    ensures forall k :: 0 <= k < |Patterns[choice].text| ==> IsUpperAlnum(Patterns[choice].text[k])
  {
    PatternsWellFormed();
  }

  /** The character that pads a pattern up to the digit count. */
  function PadChar(chain: Chain): char {
    if chain == EVM then '0' else 'x'
  }

  /** Length of the `"0x"` marker that starts an EVM recommendation. */
  function Lead(chain: Chain): nat {
    if chain == EVM then 2 else 0
  }

  /** Length of the part of a recommendation before its `".."`. */
  function HeadLength(chain: Chain, digits: int, patternLength: nat): nat {
    Lead(chain) + Max(patternLength, digits)
  }

  /** `generateRandomVanity(chain, digits)` where `Math.random` picked
      pattern number `choice`. */
  function Generate(chain: Chain, digits: int, choice: nat): (r: string)
    requires choice < |Patterns|
    ensures var p := Patterns[choice].text; var h := HeadLength(chain, digits, |p|);
      && |r| == h + 2 + |p|
      && (chain == EVM ==> r[..2] == "0x")
      && r[Lead(chain)..Lead(chain) + |p|] == p
      && (forall k :: Lead(chain) + |p| <= k < h ==> r[k] == PadChar(chain))
      && r[h..h + 2] == ".."
      && r[h + 2..] == p
  {
    var p := Patterns[choice].text;
    var pad := Repeat(PadChar(chain), Max(0, digits - |p|) as nat);
    if chain == EVM then "0x" + p + pad + ".." + p
    else p + pad + ".." + p
  }

  /** The first `".."` of a recommendation separates its head from the
      pattern: no dot occurs before it, so the recommendation contains
      `".."` and the segment before it has length max(|p|, digits), plus 2
      on EVM. */
  lemma GeneratedSplitsAtDots(chain: Chain, digits: int, choice: nat)
    requires choice < |Patterns|
    ensures var r := Generate(chain, digits, choice);
      && Includes(r, "..")
      && forall k :: 0 <= k < HeadLength(chain, digits, |Patterns[choice].text|) ==> r[k] != '.'
  {
    var p := Patterns[choice].text;
    var r := Generate(chain, digits, choice);
    var h := HeadLength(chain, digits, |p|);
    var lead := Lead(chain);
    PatternChars(choice);
    forall k | 0 <= k < h
      ensures r[k] != '.'
    {
      if k < lead {
        assert r[k] == "0x"[k];
      } else if k < lead + |p| {
        assert r[k] == r[lead..lead + |p|][k - lead] == p[k - lead];
      }
    }
    assert r == r[..h] + ".." + r[h + 2..];
    IncludesMiddle(r[..h], "..", r[h + 2..]);
  }

  /** `Array.from({ length: 10 }, () => generateRandomVanity(chain, digits))`
      with the ten pattern choices given. */
  function Batch(chain: Chain, digits: int, choices: seq<nat>): (b: seq<string>)
    requires |choices| == BatchSize
    requires forall k :: 0 <= k < |choices| ==> choices[k] < |Patterns|
    ensures |b| == BatchSize
    ensures forall k :: 0 <= k < |b| ==> b[k] == Generate(chain, digits, choices[k])
  {
    seq(BatchSize, k requires 0 <= k < BatchSize => Generate(chain, digits, choices[k]))
  }
}
