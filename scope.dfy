/**
 * The four resource scopes a shader configuration names (`ShaderScopeType`):
 * their order, the names of their generated uniform structs and the
 * parsing of their keywords.
 */
module ShaderScopes {
  import opened Wrappers
  import opened HellErrors
  import Text

  /** Declared in this order; `Global` is the default. */
  datatype ShaderScopeType = Global | Shared | Instance | Local

  const SCOPE_COUNT: nat := 4
  const DEFAULT: ShaderScopeType := Global
  const PARSE_ERROR: string := "failed to parse shader-scope"

  /** The discriminant, which the derived `Ord` compares. */
  function Ordinal(s: ShaderScopeType): (n: nat)
    ensures n < SCOPE_COUNT
  {
    match s
    case Global => 0
    case Shared => 1
    case Instance => 2
    case Local => 3
  }

  /** The derived `Ord`. */
  predicate Less(a: ShaderScopeType, b: ShaderScopeType)
  {
    Ordinal(a) < Ordinal(b)
  }

  /** `Global < Shared < Instance < Local`, and the ordinals are distinct. */
  lemma OrderIsDeclarationOrder(a: ShaderScopeType, b: ShaderScopeType)
    ensures Less(Global, Shared) && Less(Shared, Instance) && Less(Instance, Local)
    ensures Ordinal(a) == Ordinal(b) <==> a == b
    ensures a == b || Less(a, b) || Less(b, a)
  {
  }

  /** `struct_name`: the capitalised typedef followed by "Ubo". */
  function StructName(s: ShaderScopeType): (r: string)
    ensures r == Text.Capitalised(StructTypedef(s)) + "Ubo"
  {
    match s
    case Global => "GlobalUbo"
    case Shared => "SharedUbo"
    case Instance => "InstanceUbo"
    case Local => "LocalUbo"
  }

  /** `struct_typedef`: a lower-case name that is itself one of the scope's spellings. */
  function StructTypedef(s: ShaderScopeType): (r: string)
    ensures Text.IsLower(r) && r in Spellings(s)
  {
    match s
    case Global => "global"
    case Shared => "shared"
    case Instance => "instance"
    case Local => "local"
  }

  /** The three spellings `parse_txt` accepts for a scope. */
  function Spellings(s: ShaderScopeType): set<string>
  {
    match s
    case Global => {"global", "GLOBAL", "Global"}
    case Shared => {"shared", "SHARED", "Shared"}
    case Instance => {"instance", "INSTANCE", "Instance"}
    case Local => {"local", "LOCAL", "Local"}
  }

  /** The upper-case and capitalised forms of one typedef. */
  lemma GlobalForms() ensures Text.ToUpper("global") == "GLOBAL" && Text.Capitalised("global") == "Global" {}
  lemma SharedForms() ensures Text.ToUpper("shared") == "SHARED" && Text.Capitalised("shared") == "Shared" {}
  lemma InstanceForms() ensures Text.ToUpper("instance") == "INSTANCE" && Text.Capitalised("instance") == "Instance" {}
  lemma LocalForms() ensures Text.ToUpper("local") == "LOCAL" && Text.Capitalised("local") == "Local" {}

  /** The spellings are the typedef in lower case, in upper case and capitalised. */
  lemma SpellingsAreCaseForms(s: ShaderScopeType)
    ensures var t := StructTypedef(s); Spellings(s) == {t, Text.ToUpper(t), Text.Capitalised(t)}
  {
    match s
    case Global => GlobalForms();
    case Shared => SharedForms();
    case Instance => InstanceForms();
    case Local => LocalForms();
  }

  /** Every spelling is non-empty and starts and ends with a letter. */
  lemma SpellingShape(s: ShaderScopeType, t: string)
    requires t in Spellings(s)
    ensures t != [] && !Text.IsWhitespace(t[0]) && !Text.IsWhitespace(t[|t| - 1])
  {
  }

  /** The keyword match of `parse_txt`, on text already trimmed. */
  function Classify(t: string): (r: Option<ShaderScopeType>)
    ensures r.Some? ==> t in Spellings(r.value)
  {
    match t
    case "global" | "GLOBAL" | "Global" => Some(Global)
    case "shared" | "SHARED" | "Shared" => Some(Shared)
    case "instance" | "INSTANCE" | "Instance" => Some(Instance)
    case "local" | "LOCAL" | "Local" => Some(Local)
    case _ => None
  }

  lemma ClassifySpelling(s: ShaderScopeType, t: string)
    requires t in Spellings(s)
    ensures Classify(t) == Some(s)
  {
  }

  /** `parse_txt`: the trimmed text must be one of the twelve spellings. */
  function ParseTxt(txt: string): (r: Option<ShaderScopeType>)
    ensures r.Some? ==> Text.Trim(txt) in Spellings(r.value)
  {
    Classify(Text.Trim(txt))
  }

  /** `TryFrom<&str>`: a parse failure is a render error. */
  function TryFrom(txt: string): (r: HellResult<ShaderScopeType>)
    ensures r.Ok? <==> ParseTxt(txt).Some?
    ensures r.Ok? ==> Text.Trim(txt) in Spellings(r.value)
    ensures r.Err? ==> r.error == RenderMsgErr(PARSE_ERROR)
  {
    match ParseTxt(txt)
    case Some(s) => Ok(s)
    case None => Err(RenderMsgErr(PARSE_ERROR))
  }

  /** Every spelling of a scope, surrounded by any white space, parses to that scope. */
  lemma TryFromAcceptsSpellings(w1: string, s: ShaderScopeType, spelling: string, w2: string)
    requires spelling in Spellings(s)
    requires forall i :: 0 <= i < |w1| ==> Text.IsWhitespace(w1[i])
    requires forall i :: 0 <= i < |w2| ==> Text.IsWhitespace(w2[i])
    ensures TryFrom(w1 + spelling + w2) == Ok(s)
  {
    SpellingShape(s, spelling);
    Text.TrimSurrounded(w1, spelling, w2);
    ClassifySpelling(s, spelling);
  }

  /** Parsing accepts exactly the spellings of the four scopes. */
  lemma TryFromAcceptsExactly(txt: string)
    ensures TryFrom(txt).Ok? <==> exists s :: Text.Trim(txt) in Spellings(s)
  {
    if s :| Text.Trim(txt) in Spellings(s) {
      ClassifySpelling(s, Text.Trim(txt));
    }
  }

  /** A scope's typedef parses back to the scope. */
  lemma TryFromStructTypedef(s: ShaderScopeType)
    ensures TryFrom(StructTypedef(s)) == Ok(s)
  {
    TryFromAcceptsSpellings([], s, StructTypedef(s), []);
    assert [] + StructTypedef(s) + [] == StructTypedef(s);
  }
}
