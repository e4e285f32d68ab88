/**
 * A piece of on-screen text (`hell_gui::text::TextMesh`): an optional font,
 * the transform of the whole text, and one transform per byte of the text,
 * laid out one unit apart along the x axis.
 */
module TextMeshes {
  import opened Wrappers
  import opened Common

  /** `HellFont`: the mesh and material handles a font is drawn with. */
  datatype HellFont = HellFont(mesh: nat, material: nat)

  /** The number of bytes `String::len` reports for `c`: the length of its UTF-8 encoding. */
  function Utf8Width(c: char): (n: nat)
    ensures 1 <= n <= 4
    ensures n == 1 <==> (c as int) < 0x80
  {
    if (c as int) < 0x80 then 1
    else if (c as int) < 0x800 then 2
    else if (c as int) < 0x1_0000 then 3
    else 4
  }

  /** `String::len`: the UTF-8 byte length of the text. */
  function Utf8Len(s: string): (n: nat)
  {
    if s == [] then 0 else Utf8Len(s[..|s| - 1]) + Utf8Width(s[|s| - 1])
  }

  /** A text has at least as many bytes as characters, and exactly as many when it is ASCII. */
  lemma {:induction false} Utf8LenBounds(s: string)
    ensures |s| <= Utf8Len(s) <= 4 * |s|
    ensures Utf8Len(s) == |s| <==> forall i :: 0 <= i < |s| ==> (s[i] as int) < 0x80
  {
    if s != [] {
      var front := s[..|s| - 1];
      Utf8LenBounds(front);
      assert forall i :: 0 <= i < |front| ==> front[i] == s[i];
    }
  }

  /** `Vec::resize_with(n, Transform::default)`: truncated to `n`, or padded with identity transforms. */
  function Resized(ts: seq<Transform>, n: nat): (r: seq<Transform>)
    ensures |r| == n
    ensures forall i :: 0 <= i < n && i < |ts| ==> r[i] == ts[i]
    ensures forall i :: |ts| <= i < n ==> r[i] == TRANSFORM_IDENTITY
  {
    if n <= |ts| then ts[..n] else ts + seq(n - |ts|, _ => TRANSFORM_IDENTITY)
  }

  /** Where `set_text` puts the `i`-th character: `i` units along x. */
  function CharPosition(i: nat): Vec3
  {
    Vec3(i as real, 0.0, 0.0)
  }

  /** The layout loop of `set_text`: each transform moved to its character's position. */
  function LaidOut(ts: seq<Transform>): (r: seq<Transform>)
    ensures |r| == |ts|
  {
    seq(|ts|, i requires 0 <= i < |ts| => ts[i].(translation := CharPosition(i)))
  }

  /** The character transforms after `set_text(txt)`, given those before. */
  function TextTransforms(oldTs: seq<Transform>, txt: string): seq<Transform>
  {
    LaidOut(Resized(oldTs, Utf8Len(txt)))
  }

  /**
   * After `set_text` there is one transform per byte of the text; the i-th
   * sits at (i, 0, 0); the ones that existed keep their rotation and scale;
   * the new ones have the identity rotation and unit scale.
   */
  lemma TextTransformsLayout(oldTs: seq<Transform>, txt: string)
    ensures var ts := TextTransforms(oldTs, txt);
      && |ts| == Utf8Len(txt)
      && (forall i :: 0 <= i < |ts| ==> ts[i].translation == CharPosition(i))
      && (forall i :: 0 <= i < |ts| && i < |oldTs| ==>
            ts[i].rotation == oldTs[i].rotation && ts[i].scale == oldTs[i].scale)
      && (forall i :: |oldTs| <= i < |ts| ==> ts[i].rotation == QUAT_IDENTITY && ts[i].scale == VEC3_ONE)
  {
  }

  /** Setting the same text twice lays out the same transforms as setting it once. */
  lemma TextTransformsIdempotent(oldTs: seq<Transform>, txt: string)
    ensures TextTransforms(TextTransforms(oldTs, txt), txt) == TextTransforms(oldTs, txt)
  {
    var once := TextTransforms(oldTs, txt);
    var twice := TextTransforms(once, txt);
    assert |twice| == |once|;
    forall i | 0 <= i < |once|
      ensures twice[i] == once[i]
    {
      assert Resized(once, Utf8Len(txt))[i] == once[i];
    }
  }

  class TextMesh {
    var font: Option<HellFont>
    var transform: Transform
    var charTransforms: seq<Transform>
    var txt: Option<string>

    /** `TextMesh::new`: the given font, the identity transform, no text and no character transforms. */
    constructor(font: Option<HellFont>)
      ensures this.font == font && transform == TRANSFORM_IDENTITY
      ensures charTransforms == [] && txt == None
    {
      this.font := font;
      transform := TRANSFORM_IDENTITY;
      charTransforms := [];
      txt := None;
    }

    /** `char_transforms`. */
    function CharTransforms(): (ts: seq<Transform>)
      reads this
      ensures ts == charTransforms
    {
      charTransforms
    }

    /** A write through `transform_mut`: the text's own transform is replaced, nothing else changes. */
    method SetTransform(t: Transform)
      modifies this
      ensures transform == t
      ensures font == old(font) && charTransforms == old(charTransforms) && txt == old(txt)
    {
      transform := t;
    }

    /** `set_text`: stores the text, resizes the character transforms to its byte length and lays them out. */
    method SetText(text: string)
      modifies this
      ensures txt == Some(text)
      ensures charTransforms == TextTransforms(old(charTransforms), text)
      ensures font == old(font) && transform == old(transform)
    {
      var newLen := Utf8Len(text);
      txt := Some(text);
      charTransforms := Resized(charTransforms, newLen);
      ghost var resized := charTransforms;
      var currX: real := 0.0;
      for i := 0 to |charTransforms|
        invariant |charTransforms| == |resized|
        invariant txt == Some(text) && font == old(font) && transform == old(transform)
        invariant currX == i as real
        invariant forall j :: 0 <= j < i ==> charTransforms[j] == LaidOut(resized)[j]
        invariant forall j :: i <= j < |charTransforms| ==> charTransforms[j] == resized[j]
      {
        charTransforms := charTransforms[i := charTransforms[i].(translation := Vec3(currX, 0.0, 0.0))];
        currX := currX + 1.0;
      }
      assert charTransforms == LaidOut(resized);
    }

    /** `set_font`: only the font changes. */
    method SetFont(newFont: Option<HellFont>)
      modifies this
      ensures font == newFont
      ensures transform == old(transform) && charTransforms == old(charTransforms) && txt == old(txt)
    {
      font := newFont;
    }
  }
}
