/**
 * The catalog URLs the pipeline requests: the commander lookup by name and
 * the card pool, filtered by the commander's colours when it has any.
 * `Join` is JavaScript's `Array.prototype.join` on strings; `Split` is its
 * inverse, used to read the colour filter back out of a pool URL.
 */
module PoolQuery {
  import opened CardData

  const CardsEndpoint: string := "https://api.magicthegathering.io/v1/cards"
  const PageSizeParam: string := "pageSize=99"
  /** What a filtered pool URL starts with. */
  const ColorsPrefix: string := CardsEndpoint + "?colors="
  /** What a filtered pool URL ends with. */
  const ColorsSuffix: string := "&" + PageSizeParam
  /** The pool URL of a commander without colours. */
  const UnfilteredPoolUrl: string := CardsEndpoint + "?" + PageSizeParam

  /** `parts.join(sep)`: the parts in order, with `sep` between neighbours. */
  function Join(parts: seq<string>, sep: string): string
  {
    if |parts| == 0 then ""
    else if |parts| == 1 then parts[0]
    else parts[0] + sep + Join(parts[1..], sep)
  }

  /** The pieces of `s` between occurrences of `sep`, in order. */
  function Split(s: string, sep: char): (parts: seq<string>)
    ensures |parts| > 0
  {
    if |s| == 0 then [""]
    else
      var rest := Split(s[1..], sep);
      if s[0] == sep then [""] + rest
      else [[s[0]] + rest[0]] + rest[1..]
  }

  predicate HasPrefix(s: string, p: string) {
    |p| <= |s| && s[..|p|] == p
  }

  predicate HasSuffix(s: string, p: string) {
    |p| <= |s| && s[|s| - |p|..] == p
  }

  /** The commander lookup URL; `encode` stands for `encodeURIComponent`. */
  function CommanderUrl(commanderName: string, encode: string -> string): (url: string)
    ensures HasPrefix(url, CardsEndpoint + "?name=")
    ensures url[|CardsEndpoint + "?name="|..] == encode(commanderName)
  {
    CardsEndpoint + "?name=" + encode(commanderName)
  }

  /** The pool URL for a commander's `colors` field: a colour filter when the
      field is present and non-empty, no filter otherwise; 99 cards a page. */
  function PoolUrl(colors: Option<seq<string>>): string
  {
    if colors.Some? && |colors.value| > 0
    then ColorsPrefix + Join(colors.value, ",") + ColorsSuffix
    else UnfilteredPoolUrl
  }

  /** Whether a URL carries a colour filter. */
  predicate HasColorFilter(url: string) {
    HasPrefix(url, ColorsPrefix) && HasSuffix(url, ColorsSuffix)
    && |ColorsPrefix| + |ColorsSuffix| <= |url|
  }

  /** The colours a pool URL asks for, read back from its `colors` parameter;
      none when it has no colour filter. */
  function RequestedColors(url: string): seq<string> {
    if HasColorFilter(url)
    then Split(url[|ColorsPrefix|..|url| - |ColorsSuffix|], ',')
    else []
  }

  /** The colours the commander's `colors` field makes the pool request filter on. */
  function FilterColors(colors: Option<seq<string>>): seq<string> {
    if colors.Some? then colors.value else []
  }

  /** Splitting `a + t`, where `a` has no separator, glues `a` to the first
      piece of `t`. */
  lemma {:induction false} SplitAfterPlainPrefix(a: string, t: string, sep: char)
    requires sep !in a
    ensures Split(a + t, sep) == [a + Split(t, sep)[0]] + Split(t, sep)[1..]
  {
    if |a| == 0 {
      assert a + t == t;
      var parts := Split(t, sep);
      assert a + parts[0] == parts[0];
      assert parts == [parts[0]] + parts[1..];
    } else {
      SplitAfterPlainPrefix(a[1..], t, sep);
      assert (a + t)[1..] == a[1..] + t;
      assert [a[0]] + (a[1..] + Split(t, sep)[0]) == a + Split(t, sep)[0];
    }
  }

  /** Splitting a join of separator-free parts gives the parts back. */
  lemma {:induction false} SplitJoin(parts: seq<string>)
    requires |parts| > 0
    requires forall i :: 0 <= i < |parts| ==> ',' !in parts[i]
    ensures Split(Join(parts, ","), ',') == parts
  {
    if |parts| == 1 {
      SplitAfterPlainPrefix(parts[0], "", ',');
      assert parts[0] + "" == parts[0];
    } else {
      var tail := Join(parts[1..], ",");
      SplitJoin(parts[1..]);
      assert Join(parts, ",") == parts[0] + ("," + tail);
      SplitAfterPlainPrefix(parts[0], "," + tail, ',');
      assert ("," + tail)[1..] == tail;
      assert Split("," + tail, ',') == [""] + parts[1..];
      assert parts[0] + "" == parts[0];
    }
  }

  /** The pool request filters by colour exactly when the commander has
      colours, and every pool request asks for a page of 99 cards. */
  lemma PoolUrlShape(colors: Option<seq<string>>)
    ensures HasColorFilter(PoolUrl(colors)) <==> colors.Some? && |colors.value| > 0
    ensures !HasColorFilter(PoolUrl(colors)) ==> PoolUrl(colors) == UnfilteredPoolUrl
    ensures HasPrefix(PoolUrl(colors), CardsEndpoint + "?")
    ensures HasSuffix(PoolUrl(colors), PageSizeParam)
  {
  }

  /** The colour filter of the pool request, read back, is the commander's
      colours in their original order (none when it has none), provided no
      colour code contains a comma. */
  lemma PoolUrlRequestsCommanderColors(colors: Option<seq<string>>)
    requires forall i :: 0 <= i < |FilterColors(colors)| ==> ',' !in FilterColors(colors)[i]
    ensures RequestedColors(PoolUrl(colors)) == FilterColors(colors)
  {
    PoolUrlShape(colors);
    var url := PoolUrl(colors);
    if colors.Some? && |colors.value| > 0 {
      var joined := Join(colors.value, ",");
      assert url == ColorsPrefix + joined + ColorsSuffix;
      assert url[|ColorsPrefix|..|url| - |ColorsSuffix|] == joined;
      assert FilterColors(colors) == colors.value;
      SplitJoin(colors.value);
    }
  }

  /** A commander with colours W, U, B, G asks for
      `https://api.magicthegathering.io/v1/cards?colors=W,U,B,G&pageSize=99`. */
  lemma FourColorPoolUrl()
    ensures PoolUrl(Some(["W", "U", "B", "G"])) == ColorsPrefix + "W,U,B,G" + ColorsSuffix
  {
  }
}
