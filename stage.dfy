/**
 * The two shader stages (`ShaderStageType`) and the parsing of their
 * keywords, which trims only leading white space.
 */
module ShaderStages {
  import opened Wrappers
  import opened HellErrors
  import Text

  datatype ShaderStageType = Vertex | Fragment

  const SHADER_TYPE_COUNT: nat := 2
  const PARSE_ERROR: string := "failed to parse value into shader type"

  /** The `repr(usize)` discriminant. */
  function Ordinal(s: ShaderStageType): (n: nat)
    ensures n < SHADER_TYPE_COUNT
  {
    match s
    case Vertex => 0
    case Fragment => 1
  }

  /** The short and long keyword of a stage. */
  function Keywords(s: ShaderStageType): seq<string>
  {
    match s
    case Vertex => ["vert", "vertex"]
    case Fragment => ["frag", "fragment"]
  }

  /** The six spellings `parse_txt` accepts for a stage. */
  function Spellings(s: ShaderStageType): seq<string>
  {
    match s
    case Vertex => ["vert", "VERT", "Vert", "vertex", "VERTEX", "Vertex"]
    case Fragment => ["frag", "FRAG", "Frag", "fragment", "FRAGMENT", "Fragment"]
  }

  /** Every spelling is non-empty and neither starts nor ends with white space. */
  lemma SpellingShape(s: ShaderStageType, t: string)
    requires t in Spellings(s)
    ensures t != [] && !Text.IsWhitespace(t[0]) && !Text.IsWhitespace(t[|t| - 1])
  {
  }

  /** The upper-case and capitalised forms of one keyword. */
  lemma VertForms() ensures Text.ToUpper("vert") == "VERT" && Text.Capitalised("vert") == "Vert" {}
  lemma VertexForms() ensures Text.ToUpper("vertex") == "VERTEX" && Text.Capitalised("vertex") == "Vertex" {}
  lemma FragForms() ensures Text.ToUpper("frag") == "FRAG" && Text.Capitalised("frag") == "Frag" {}
  lemma FragmentForms() ensures Text.ToUpper("fragment") == "FRAGMENT" && Text.Capitalised("fragment") == "Fragment" {}

  /** The spellings are each keyword in lower case, in upper case and capitalised. */
  lemma SpellingsAreCaseForms(s: ShaderStageType)
    ensures var k := Keywords(s);
            Spellings(s) == [k[0], Text.ToUpper(k[0]), Text.Capitalised(k[0]), k[1], Text.ToUpper(k[1]), Text.Capitalised(k[1])]
  {
    match s
    case Vertex => VertForms(); VertexForms();
    case Fragment => FragForms(); FragmentForms();
  }

  /** The keyword match of `parse_txt`, on text already trimmed. */
  function Classify(t: string): (r: Option<ShaderStageType>)
    ensures r.Some? ==> t in Spellings(r.value)
  {
    match t
    case "vert" | "VERT" | "Vert" | "vertex" | "VERTEX" | "Vertex" => Some(Vertex)
    case "frag" | "FRAG" | "Frag" | "fragment" | "FRAGMENT" | "Fragment" => Some(Fragment)
    case _ => None
  }

  lemma ClassifySpelling(s: ShaderStageType, t: string)
    requires t in Spellings(s)
    ensures Classify(t) == Some(s)
  {
  }

  /** `parse_txt`: match on the text with leading white space removed. */
  function ParseTxt(txt: string): (r: Option<ShaderStageType>)
    ensures r.Some? ==> Text.TrimStart(txt) in Spellings(r.value)
  {
    Classify(Text.TrimStart(txt))
  }

  /** `TryFrom<&str>` through `ok_or_render_herr`. */
  function TryFrom(txt: string): (r: HellResult<ShaderStageType>)
    ensures r == OkOrRenderHerr(ParseTxt(txt), PARSE_ERROR)
    ensures r.Ok? ==> Text.TrimStart(txt) in Spellings(r.value)
  {
    match ParseTxt(txt)
    case Some(s) => Ok(s)
    case None => Err(RenderMsgErr(PARSE_ERROR))
  }

  /** Every spelling after any leading white space parses to its stage. */
  lemma TryFromAcceptsSpellings(w: string, s: ShaderStageType, spelling: string)
    requires spelling in Spellings(s)
    requires forall i :: 0 <= i < |w| ==> Text.IsWhitespace(w[i])
    ensures TryFrom(w + spelling) == Ok(s)
  {
    Text.TrimStartAfterWhitespace(w, spelling);
    SpellingShape(s, spelling);
    Text.TrimStartOfNonWhite(spelling);
    ClassifySpelling(s, spelling);
  }

  /** Parsing accepts exactly the spellings of the two stages after leading white space. */
  lemma TryFromAcceptsExactly(txt: string)
    ensures TryFrom(txt).Ok? <==> exists s :: Text.TrimStart(txt) in Spellings(s)
  {
    if s :| Text.TrimStart(txt) in Spellings(s) {
      ClassifySpelling(s, Text.TrimStart(txt));
    }
  }

  /** Trailing white space is not trimmed, so text that ends in it never parses. */
  lemma {:induction false} TrailingWhitespaceRejected(txt: string, c: char)
    requires Text.IsWhitespace(c)
    ensures TryFrom(txt + [c]).Err?
  {
    var r := Text.TrimStart(txt + [c]);
    if r != [] {
      assert r[|r| - 1] == c;
      if Classify(r).Some? {
        var s := Classify(r).value;
        SpellingShape(s, r);
        assert false;
      }
    }
  }
}
