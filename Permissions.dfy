/**
 * User permissions of the Rust API (rust_api/src/models/user/permissions.rs)
 * and their text encoding in the database: the JSON string of the variant name.
 */
module Permissions {
  import opened Wrappers

  /** `Permission`. */
  datatype Permission = ViewUsers | ManageUsers | ManagePages | ViewUnpublishedPosts | ManagePosts

  /** Every variant, in declaration order. */
  const AllPermissions: seq<Permission> := [ViewUsers, ManageUsers, ManagePages, ViewUnpublishedPosts, ManagePosts]

  /** There are exactly five permissions. */
  lemma ExactlyFive(p: Permission)
    ensures p in AllPermissions
    ensures |AllPermissions| == 5
    ensures forall i, j :: 0 <= i < j < |AllPermissions| ==> AllPermissions[i] != AllPermissions[j]
  {
  }

  /** The variant name, as serde writes it. */
  function Name(p: Permission): (r: string)
    ensures r != [] && '"' !in r
  {
    match p
    case ViewUsers => "ViewUsers"
    case ManageUsers => "ManageUsers"
    case ManagePages => "ManagePages"
    case ViewUnpublishedPosts => "ViewUnpublishedPosts"
    case ManagePosts => "ManagePosts"
  }

  /** The variant with the given name, if any. */
  function FromName(s: string): (r: Option<Permission>)
    ensures r.Some? ==> Name(r.value) == s
  {
    if s == "ViewUsers" then Some(ViewUsers)
    else if s == "ManageUsers" then Some(ManageUsers)
    else if s == "ManagePages" then Some(ManagePages)
    else if s == "ViewUnpublishedPosts" then Some(ViewUnpublishedPosts)
    else if s == "ManagePosts" then Some(ManagePosts)
    else None
  }

  /** `to_sql`: `serde_json::to_string` of a unit variant, the name in double quotes. */
  function ToSql(p: Permission): (r: string)
    ensures |r| >= 3 && r[0] == '"' && r[|r| - 1] == '"' && r[1..|r| - 1] == Name(p)
  {
    "\"" + Name(p) + "\""
  }

  /** Why `from_sql` fails: the column was NULL, or the text is not one of the encodings. */
  datatype DecodeError = NullText | NotAPermission(text: string)

  /** Whitespace as JSON defines it (section 2 of RFC 8259). */
  predicate JsonSpace(c: char) {
    c == ' ' || c == '\t' || c == '\n' || c == '\r'
  }

  /** The text without JSON whitespace at either end. */
  function TrimStart(s: string): (r: string)
    ensures |r| <= |s| && (r != [] ==> !JsonSpace(r[0]))
    decreases |s|
  {
    if s != [] && JsonSpace(s[0]) then TrimStart(s[1..]) else s
  }

  function TrimEnd(s: string): (r: string)
    ensures |r| <= |s| && (r != [] ==> !JsonSpace(r[|r| - 1]))
    decreases |s|
  {
    if s != [] && JsonSpace(s[|s| - 1]) then TrimEnd(s[..|s| - 1]) else s
  }

  function Trim(s: string): string {
    TrimEnd(TrimStart(s))
  }

  /** `from_sql`: the text of the column, parsed as a JSON string naming a variant. */
  function FromSql(column: Option<string>): (r: Result<Permission, DecodeError>)
    ensures column.None? ==> r == Err(NullText)
    ensures r.Ok? ==> column.Some? && Trim(column.value) == ToSql(r.value)
    ensures r.Err? && column.Some? ==> r.error == NotAPermission(column.value)
  {
    match column
    case None => Err(NullText)
    case Some(text) =>
      var t := Trim(text);
      if |t| >= 2 && t[0] == '"' && t[|t| - 1] == '"' then
        match FromName(t[1..|t| - 1])
        case Some(p) =>
          assert t == "\"" + t[1..|t| - 1] + "\"";
          Ok(p)
        case None => Err(NotAPermission(text))
      else Err(NotAPermission(text))
  }

  /** Text without whitespace at either end trims to itself. */
  lemma TrimNoSpace(s: string)
    requires s != [] && !JsonSpace(s[0]) && !JsonSpace(s[|s| - 1])
    ensures Trim(s) == s
  {
  }

  /** Decoding inverts encoding. */
  lemma RoundTrip(p: Permission)
    ensures FromSql(Some(ToSql(p))) == Ok(p)
  {
    TrimNoSpace(ToSql(p));
    assert ToSql(p)[1..|ToSql(p)| - 1] == Name(p);
  }

  /** So the encoding is injective: no two permissions share a column text. */
  lemma ToSqlInjective(p: Permission, q: Permission)
    requires ToSql(p) == ToSql(q)
    ensures p == q
  {
    RoundTrip(p);
    RoundTrip(q);
  }

  /** Leading whitespace is skipped. */
  lemma {:induction false} TrimStartPadded(ws: string, s: string)
    requires forall i :: 0 <= i < |ws| ==> JsonSpace(ws[i])
    requires s != [] && !JsonSpace(s[0])
    ensures TrimStart(ws + s) == s
    decreases |ws|
  {
    if ws == [] {
      assert ws + s == s;
    } else {
      assert (ws + s)[1..] == ws[1..] + s;
      TrimStartPadded(ws[1..], s);
    }
  }

  /** Trailing whitespace is skipped. */
  lemma {:induction false} TrimEndPadded(s: string, ws: string)
    requires forall i :: 0 <= i < |ws| ==> JsonSpace(ws[i])
    requires s != [] && !JsonSpace(s[|s| - 1])
    ensures TrimEnd(s + ws) == s
    decreases |ws|
  {
    if ws == [] {
      assert s + ws == s;
    } else {
      var w := ws[..|ws| - 1];
      assert (s + ws)[..|s + ws| - 1] == s + w;
      TrimEndPadded(s, w);
    }
  }

  /** JSON allows whitespace around the string, and so does the decoder. */
  lemma DecodesPadded(p: Permission, before: string, after: string)
    requires forall i :: 0 <= i < |before| ==> JsonSpace(before[i])
    requires forall i :: 0 <= i < |after| ==> JsonSpace(after[i])
    ensures FromSql(Some(before + ToSql(p) + after)) == Ok(p)
  {
    var e := ToSql(p);
    assert before + e + after == before + (e + after);
    TrimStartPadded(before, e + after);
    TrimEndPadded(e, after);
    RoundTrip(p);
    TrimNoSpace(e);
  }

  /** The bare variant name, without the quotes, is not an encoding. */
  lemma BareNameRejected(p: Permission)
    ensures FromSql(Some(Name(p))).Err?
  {
    var n := Name(p);
    TrimNoSpace(n);
  }
}
