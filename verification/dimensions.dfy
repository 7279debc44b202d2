/**
 The three dimensions of a Bedrock world, and the two ways the border manager turns
 a string into one: matching the host's dimension identifier by substring
 (`getDimensionKey`), and looking up a configuration key typed by an operator.
 */
module Dimensions {
  import opened Wrappers

  datatype Dimension = Overworld | Nether | End

  /** The order in which the configuration object lists its dimensions. */
  const AllDimensions: seq<Dimension> := [Overworld, Nether, End]

  /** `pat` occurs in `s` at offset `i`. */
  ghost predicate OccursAt(s: string, pat: string, i: int) {
    0 <= i && i + |pat| <= |s| && s[i..i + |pat|] == pat
  }

  /** `pat` occurs somewhere in `s` (the meaning of JavaScript's `String.prototype.includes`). */
  ghost predicate IsSubstring(s: string, pat: string) {
    exists i :: OccursAt(s, pat, i)
  }

  /** `pat` is a prefix of `s`. */
  predicate StartsWith(s: string, pat: string) {
    |pat| <= |s| && s[..|pat|] == pat
  }

  /** Searches `s` for `pat` from offset `from` onwards. */
  function ContainsFrom(s: string, pat: string, from: nat): (r: bool)
    requires from <= |s|
    ensures r <==> exists i :: from <= i && OccursAt(s, pat, i)
    decreases |s| - from
  {
    if StartsWith(s[from..], pat) then
      assert OccursAt(s, pat, from) by {
        assert s[from..][..|pat|] == s[from..from + |pat|];
      }
      true
    else if from == |s| then
      false
    else
      var r := ContainsFrom(s, pat, from + 1);
      assert !OccursAt(s, pat, from);
      r
  }

  /** Executable substring test. */
  function Contains(s: string, pat: string): (r: bool)
    ensures r <==> IsSubstring(s, pat)
  {
    ContainsFrom(s, pat, 0)
  }

  /**
   Resolves a host dimension identifier such as `minecraft:the_end`: anything that
   mentions `nether` is the Nether, otherwise anything that mentions `end` is the End,
   and every other identifier falls back to the Overworld.
   */
  function DimensionKey(dimensionId: string): (d: Dimension)
    ensures d == Nether <==> IsSubstring(dimensionId, "nether")
    ensures d == End <==> !IsSubstring(dimensionId, "nether") && IsSubstring(dimensionId, "end")
    ensures d == Overworld <==> !IsSubstring(dimensionId, "nether") && !IsSubstring(dimensionId, "end")
  {
    if Contains(dimensionId, "nether") then Nether
    else if Contains(dimensionId, "end") then End
    else Overworld
  }

  /** The configuration key an operator names, or None for a name the configuration lacks. */
  function ConfigKey(name: string): (r: Option<Dimension>)
    ensures r.Some? <==> name in {"overworld", "nether", "end"}
    ensures r.Some? ==> KeyName(r.value) == name
  {
    if name == "overworld" then Some(Overworld)
    else if name == "nether" then Some(Nether)
    else if name == "end" then Some(End)
    else None
  }

  /** The configuration key under which a dimension is stored. */
  function KeyName(d: Dimension): string {
    match d
    case Overworld => "overworld"
    case Nether => "nether"
    case End => "end"
  }

  /** Looking up a dimension's own key name finds that dimension again. */
  lemma ConfigKeyRoundTrip(d: Dimension)
    ensures ConfigKey(KeyName(d)) == Some(d)
  {
  }
}
