/** Reading the bearer token out of an `Authorization` header. The header
    is absent (`null`) or a string. */
module Auth {
  import opened Wrappers
  import opened Strings

  /** `extractTokenFromHeader`: no token for a missing or empty header;
      otherwise the header split at every space must give exactly two
      pieces, the first being `Bearer`. */
  function ExtractTokenFromHeader(header: Option<string>): Option<string> {
    if header.None? || header.value == "" then None
    else
      var parts := Split(header.value, ' ');
      if |parts| != 2 || parts[0] != "Bearer" then None
      else Some(parts[1])
  }

  /** A token comes out exactly when the header is `Bearer`, one space and
      a token with no space in it; that token is the one returned. */
  lemma ExtractIff(header: Option<string>, token: string)
    ensures ExtractTokenFromHeader(header) == Some(token) <==> header == Some("Bearer " + token) && ' ' !in token
  {
    if ExtractTokenFromHeader(header) == Some(token) {
      var parts := Split(header.value, ' ');
      JoinSplit(header.value, ' ');
      assert parts == ["Bearer", token];
      assert Join(parts, " ") == "Bearer" + " " + Join(parts[1..], " ");
      assert parts[1..] == [token];
      assert 1 < |parts| && ' ' !in parts[1];
      assert "Bearer" + " " + token == "Bearer " + token;
    }
    if header == Some("Bearer " + token) && ' ' !in token {
      BearerRoundTrip(token);
    }
  }

  /** The header the client sends for a space-free token gives the token
      back. */
  lemma BearerRoundTrip(token: string)
    requires ' ' !in token
    ensures ExtractTokenFromHeader(Some("Bearer " + token)) == Some(token)
  {
    var parts := ["Bearer", token];
    assert forall i :: 0 <= i < |parts| ==> ' ' !in parts[i];
    SplitJoin(parts, ' ');
    assert Join(parts, " ") == "Bearer" + " " + Join(parts[1..], " ");
    assert parts[1..] == [token];
    assert "Bearer" + " " + token == "Bearer " + token;
  }

  /** A second space after `Bearer` adds a piece, so no token comes out;
      nor does one from a missing or empty header. */
  lemma NoToken(token: string)
    ensures ExtractTokenFromHeader(Some("Bearer  " + token)) == None
    ensures ExtractTokenFromHeader(None) == None
    ensures ExtractTokenFromHeader(Some("")) == None
  {
    var h := Some("Bearer  " + token);
    forall t ensures ExtractTokenFromHeader(h) != Some(t) {
      ExtractIff(h, t);
      if h == Some("Bearer " + t) {
        assert ("Bearer " + t)[7] == ("Bearer  " + token)[7] == ' ';
        assert t[0] == ' ';
      }
    }
  }
}
