/** Decoding of the raw query string into its argument mapping: pieces
    separated by `&`, each split at its first `=` into key and value, values
    of a repeated key kept in order of appearance. */
module Query {

  type Values = map<string, seq<string>>

  /** `s` split at its first `sep`: the part before and the part after; with
      no `sep` in `s`, all of `s` and nothing. */
  function Cut(s: string, sep: char): (parts: (string, string))
    ensures sep in s ==> parts.0 + [sep] + parts.1 == s && sep !in parts.0
    ensures sep !in s ==> parts == (s, "")
    ensures s != "" ==> |parts.1| < |s|
  {
    if |s| == 0 then ("", "")
    else if s[0] == sep then ("", s[1..])
    else
      var (before, after) := Cut(s[1..], sep);
      assert s == [s[0]] + s[1..];
      ([s[0]] + before, after)
  }

  function ParseQuery(q: string): (args: Values)
    ensures forall k :: k in args ==> |args[k]| > 0
    decreases |q|
  {
    if q == "" then map[]
    else
      var (piece, rest) := Cut(q, '&');
      var later := ParseQuery(rest);
      if piece == "" then later
      else
        var (key, value) := Cut(piece, '=');
        later[key := [value] + (if key in later then later[key] else [])]
  }

  /** `s` is made of `&` separators only. */
  predicate OnlySeparators(s: string)
  {
    forall i :: 0 <= i < |s| ==> s[i] == '&'
  }

  lemma OnlySeparatorsCons(rest: string)
    ensures OnlySeparators("&" + rest) <==> OnlySeparators(rest)
  {
    var s := "&" + rest;
    if OnlySeparators(rest) {
      forall i | 0 <= i < |s| ensures s[i] == '&'
      {
        if i > 0 {
          assert s[i] == rest[i - 1];
        }
      }
    }
    if OnlySeparators(s) {
      forall i | 0 <= i < |rest| ensures rest[i] == '&'
      {
        assert rest[i] == s[i + 1];
      }
    }
  }

  /** The first piece of a non-empty query is empty exactly when the query
      opens with a separator. */
  lemma FirstPiece(q: string)
    requires q != ""
    ensures Cut(q, '&').0 == "" ==> q == "&" + Cut(q, '&').1
    ensures Cut(q, '&').0 != "" ==> q[0] != '&'
  {
    var parts := Cut(q, '&');
    var piece := parts.0;
    if '&' in q {
      assert piece + ['&'] + parts.1 == q;
      if piece != "" {
        assert q[0] == piece[0];
        assert piece[0] in piece;
      } else {
        assert piece + ['&'] == "&";
      }
    }
  }

  /** The arguments are empty exactly when the query holds no piece at all,
      that is, when it is made of separators only (the empty query
      included). */
  lemma {:induction false} ParseQueryEmptyIff(q: string)
    ensures ParseQuery(q) == map[] <==> OnlySeparators(q)
    decreases |q|
  {
    if q != "" {
      var (piece, rest) := Cut(q, '&');
      ParseQueryEmptyIff(rest);
      FirstPiece(q);
      if piece == "" {
        OnlySeparatorsCons(rest);
      } else {
        var (key, value) := Cut(piece, '=');
        assert key in ParseQuery(q);
      }
    }
  }
}
