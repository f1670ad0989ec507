/**
 * The SVG transform of the `fisand-icon` custom icon collection:
 * `svg.replace(/^<svg /, '<svg fill="currentColor" ')`. The pattern has no
 * `m` or `g` flag, so `^` anchors at the start of the whole text and at most
 * that one leading occurrence is replaced.
 */
module SvgIcons {

  /** The text the pattern matches at the start. */
  const Open: string := "<svg "

  /** Its replacement: the same opening with the fill attribute inserted. */
  const Filled: string := "<svg fill=\"currentColor\" "

  predicate StartsWith(s: string, prefix: string) {
    |prefix| <= |s| && s[..|prefix|] == prefix
  }

  /** The loader's transform: make an icon inherit the current text colour. */
  function FillCurrentColor(svg: string): (r: string)
    ensures StartsWith(svg, Open) ==> r == Filled + svg[|Open|..]
    ensures StartsWith(svg, Open) ==> |r| == |svg| + 20
    ensures !StartsWith(svg, Open) ==> r == svg
  {
    if StartsWith(svg, Open) then Filled + svg[|Open|..] else svg
  }

  /** Removes the attribute that FillCurrentColor inserts; its inverse. */
  function StripFill(svg: string): (r: string)
    ensures StartsWith(svg, Filled) ==> r == Open + svg[|Filled|..]
    ensures StartsWith(svg, Filled) ==> |r| + 20 == |svg|
    ensures !StartsWith(svg, Filled) ==> r == svg
  {
    if StartsWith(svg, Filled) then Open + svg[|Filled|..] else svg
  }

  /** Text that begins with the filled opening also begins with the bare one. */
  lemma FilledStartsOpen(s: string)
    requires StartsWith(s, Filled)
    ensures StartsWith(s, Open)
  {
    assert s[..|Open|] == s[..|Filled|][..|Open|];
    assert Filled[..|Open|] == Open;
  }

  /** The output carries the attribute at its head exactly when the input began with `<svg `. */
  lemma {:induction false} FilledIffOpen(svg: string)
    ensures StartsWith(FillCurrentColor(svg), Filled) <==> StartsWith(svg, Open)
  {
    var r := FillCurrentColor(svg);
    if StartsWith(svg, Open) {
      assert r[..|Filled|] == Filled;
    } else if StartsWith(r, Filled) {
      FilledStartsOpen(svg);
    }
  }

  /** Stripping undoes the transform on every input. */
  lemma {:induction false} StripFillUndoesFill(svg: string)
    ensures StripFill(FillCurrentColor(svg)) == svg
  {
    FilledIffOpen(svg);
    if StartsWith(svg, Open) {
      var r := FillCurrentColor(svg);
      assert r[|Filled|..] == svg[|Open|..];
      assert svg == svg[..|Open|] + svg[|Open|..];
    }
  }

  /** On text that carries the attribute at its head, filling undoes stripping. */
  lemma {:induction false} FillUndoesStrip(svg: string)
    requires StartsWith(svg, Filled)
    ensures FillCurrentColor(StripFill(svg)) == svg
  {
    var s := StripFill(svg);
    assert s[..|Open|] == Open;
    assert s[|Open|..] == svg[|Filled|..];
    assert svg == svg[..|Filled|] + svg[|Filled|..];
  }

  /**
   * Only the leading occurrence is rewritten: everything after the opening
   * tag, including any further `<svg ` text, is copied verbatim.
   */
  lemma {:induction false} LeadingOnly(svg: string, k: nat)
    requires StartsWith(svg, Open)
    requires |Open| <= k < |svg|
    ensures FillCurrentColor(svg)[k + 20] == svg[k]
  {
  }

  /**
   * The transform is not idempotent: a second application inserts the
   * attribute a second time.
   */
  lemma {:induction false} FillTwiceInsertsTwice(svg: string)
    requires StartsWith(svg, Open)
    ensures FillCurrentColor(FillCurrentColor(svg))
         == "<svg fill=\"currentColor\" fill=\"currentColor\" " + svg[|Open|..]
    ensures FillCurrentColor(FillCurrentColor(svg)) != FillCurrentColor(svg)
  {
    var rest := svg[|Open|..];
    var once := FillCurrentColor(svg);
    assert once == Filled + rest;
    FilledIffOpen(svg);
    FilledStartsOpen(once);
    var tail := once[|Open|..];
    assert tail == Filled[|Open|..] + rest;
    assert FillCurrentColor(once) == Filled + tail;
    assert |FillCurrentColor(once)| == |once| + 20;
  }
}
