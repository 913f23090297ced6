/**
 * The permission scopes a key may grant, and their fixed wire tokens.
 * The enumeration is closed: a token outside the table does not decode.
 */
module Actions {
  import opened Wire

  datatype Action =
    | All
    | Search
    | DocumentsAdd
    | DocumentsGet
    | DocumentsDelete
    | IndexesCreate
    | IndexesGet
    | IndexesUpdate
    | IndexesDelete
    | TasksGet
    | SettingsGet
    | SettingsUpdate
    | StatsGet
    | DumpsCreate
    | DumpsGet
    | Version

  /**
   * The token each variant is renamed to on the wire; the wildcard `*` is the
   * token of `All` and of no other variant.
   */
  function ToToken(a: Action): (r: string)
    ensures r == "*" <==> a == All
  {
    match a
    case All => "*"
    case Search => "search"
    case DocumentsAdd => "documents.add"
    case DocumentsGet => "documents.get"
    case DocumentsDelete => "documents.delete"
    case IndexesCreate => "indexes.create"
    case IndexesGet => "indexes.get"
    case IndexesUpdate => "indexes.update"
    case IndexesDelete => "indexes.delete"
    case TasksGet => "tasks.get"
    case SettingsGet => "settings.get"
    case SettingsUpdate => "settings.update"
    case StatsGet => "stats.get"
    case DumpsCreate => "dumps.create"
    case DumpsGet => "dumps.get"
    case Version => "version"
  }

  /**
   * Decodes a wire token. It yields exactly the variant whose token is `s`,
   * and `None` when no variant has that token (there is no catch-all).
   */
  function FromToken(s: string): (r: Option<Action>)
    ensures forall a: Action :: r == Some(a) <==> ToToken(a) == s
    ensures r == None <==> forall a: Action :: ToToken(a) != s
  {
    if s == "*" then Some(All)
    else if s == "search" then Some(Search)
    else if s == "documents.add" then Some(DocumentsAdd)
    else if s == "documents.get" then Some(DocumentsGet)
    else if s == "documents.delete" then Some(DocumentsDelete)
    else if s == "indexes.create" then Some(IndexesCreate)
    else if s == "indexes.get" then Some(IndexesGet)
    else if s == "indexes.update" then Some(IndexesUpdate)
    else if s == "indexes.delete" then Some(IndexesDelete)
    else if s == "tasks.get" then Some(TasksGet)
    else if s == "settings.get" then Some(SettingsGet)
    else if s == "settings.update" then Some(SettingsUpdate)
    else if s == "stats.get" then Some(StatsGet)
    else if s == "dumps.create" then Some(DumpsCreate)
    else if s == "dumps.get" then Some(DumpsGet)
    else if s == "version" then Some(Version)
    else None
  }

  /** Every token but the wildcard is a non-empty lower-case, dot-separated name. */
  lemma TokenShape(a: Action)
    requires a != All
    ensures |ToToken(a)| > 0
    ensures forall i :: 0 <= i < |ToToken(a)| ==> ToToken(a)[i] == '.' || 'a' <= ToToken(a)[i] <= 'z'
  {
  }

  /** Decoding the token of a variant gives back that variant. */
  lemma TokenRoundTrip(a: Action)
    ensures FromToken(ToToken(a)) == Some(a)
  {
  }

  /** No two variants share a token. */
  lemma TokensDistinct(a: Action, b: Action)
    ensures ToToken(a) == ToToken(b) ==> a == b
  {
  }

  /** Every variant, in declaration order. */
  const AllActions: seq<Action> := [
    All, Search, DocumentsAdd, DocumentsGet, DocumentsDelete,
    IndexesCreate, IndexesGet, IndexesUpdate, IndexesDelete,
    TasksGet, SettingsGet, SettingsUpdate, StatsGet,
    DumpsCreate, DumpsGet, Version
  ]

  /**
   * The enumeration has exactly sixteen variants, each listed once, and the
   * sixteen tokens are pairwise different.
   */
  lemma SixteenDistinctTokens()
    ensures |AllActions| == 16
    ensures forall a: Action :: a in AllActions
    ensures forall i, j :: 0 <= i < j < |AllActions| ==> ToToken(AllActions[i]) != ToToken(AllActions[j])
  {
    forall a: Action ensures a in AllActions {
      match a
      case All => assert AllActions[0] == a;
      case Search => assert AllActions[1] == a;
      case DocumentsAdd => assert AllActions[2] == a;
      case DocumentsGet => assert AllActions[3] == a;
      case DocumentsDelete => assert AllActions[4] == a;
      case IndexesCreate => assert AllActions[5] == a;
      case IndexesGet => assert AllActions[6] == a;
      case IndexesUpdate => assert AllActions[7] == a;
      case IndexesDelete => assert AllActions[8] == a;
      case TasksGet => assert AllActions[9] == a;
      case SettingsGet => assert AllActions[10] == a;
      case SettingsUpdate => assert AllActions[11] == a;
      case StatsGet => assert AllActions[12] == a;
      case DumpsCreate => assert AllActions[13] == a;
      case DumpsGet => assert AllActions[14] == a;
      case Version => assert AllActions[15] == a;
    }
    forall i, j | 0 <= i < j < |AllActions|
      ensures ToToken(AllActions[i]) != ToToken(AllActions[j])
    {
      TokensDistinct(AllActions[i], AllActions[j]);
    }
  }

  /** A JSON value that decodes to an action: a string holding a known token. */
  predicate IsActionToken(j: Json)
  {
    j.JString? && FromToken(j.str).Some?
  }

  /** How a `Vec<Action>` is written: the tokens as JSON strings, in order. */
  function EncodeActions(actions: seq<Action>): (items: seq<Json>)
    ensures |items| == |actions|
  {
    if actions == [] then []
    else [JString(ToToken(actions[0]))] + EncodeActions(actions[1..])
  }

  /**
   * Reads a JSON array of action tokens back. One element that is not a known
   * token makes the whole array fail.
   */
  function DecodeActions(items: seq<Json>): (r: Option<seq<Action>>)
    ensures r.Some? ==> |r.value| == |items|
    ensures r.Some? ==> forall i :: 0 <= i < |items| ==> items[i] == JString(ToToken(r.value[i]))
  {
    if items == [] then Some([])
    else if !IsActionToken(items[0]) then None
    else match DecodeActions(items[1..])
      case None => None
      case Some(rest) => Some([FromToken(items[0].str).value] + rest)
  }

  /** `DecodeActions` is a left inverse of `EncodeActions`. */
  lemma {:induction false} DecodeEncodeActions(actions: seq<Action>)
    ensures DecodeActions(EncodeActions(actions)) == Some(actions)
  {
    if actions != [] {
      DecodeEncodeActions(actions[1..]);
      TokenRoundTrip(actions[0]);
      assert actions == [actions[0]] + actions[1..];
    }
  }

  /** Only canonical encodings decode: a decoded array is the encoding of its result. */
  lemma {:induction false} EncodeDecodeActions(items: seq<Json>, actions: seq<Action>)
    requires DecodeActions(items) == Some(actions)
    ensures EncodeActions(actions) == items
  {
    if items != [] {
      var rest :| DecodeActions(items[1..]) == Some(rest) && actions == [FromToken(items[0].str).value] + rest;
      EncodeDecodeActions(items[1..], rest);
      assert actions[1..] == rest;
      assert items == [items[0]] + items[1..];
    }
  }

  /** An array fails to decode exactly when one of its elements is not a known token. */
  lemma {:induction false} DecodeActionsFails(items: seq<Json>)
    ensures DecodeActions(items) == None <==> exists i :: 0 <= i < |items| && !IsActionToken(items[i])
  {
    if items != [] {
      DecodeActionsFails(items[1..]);
      if DecodeActions(items[1..]) == None {
        var i :| 0 <= i < |items[1..]| && !IsActionToken(items[1..][i]);
        assert !IsActionToken(items[i + 1]);
      } else {
        forall i | 1 <= i < |items| ensures IsActionToken(items[i]) {
          assert items[i] == items[1..][i - 1];
        }
      }
    }
  }
}
