/** The `Sec-WebSocket-Protocol` list: read by the relay (crates/relay-server/src/ws_tunnel.rs), printed again
    by the agent (crates/agent/src/relay_client.rs). Section 11.3.4 of RFC 6455, with the list syntax of
    section 5.6.1 of RFC 9110. */
module Subprotocols {

  predicate IsWhite(c: char) { c == ' ' || '\t' <= c <= '\r' }

  function TrimStart(s: string): string {
    if s != "" && IsWhite(s[0]) then TrimStart(s[1..]) else s
  }

  function TrimEnd(s: string): string {
    if s != "" && IsWhite(s[|s| - 1]) then TrimEnd(s[..|s| - 1]) else s
  }

  function Trim(s: string): string { TrimEnd(TrimStart(s)) }

  /** `split(',')`: the pieces between commas, at least one. */
  function Split(s: string): (pieces: seq<string>)
    ensures pieces != []
  {
    if s == "" then [""]
    else
      var rest := Split(s[1..]);
      if s[0] == ',' then [""] + rest else [[s[0]] + rest[0]] + rest[1..]
  }

  function Tokens(pieces: seq<string>): seq<string> {
    if pieces == [] then [] else (if Trim(pieces[0]) == "" then [] else [Trim(pieces[0])]) + Tokens(pieces[1..])
  }

  /** parse_subprotocols, given the header value. */
  function Parse(raw: string): seq<string> { Tokens(Split(raw)) }

  /** `join(", ")` */
  function Join(tokens: seq<string>): string {
    if tokens == [] then "" else if |tokens| == 1 then tokens[0] else tokens[0] + ", " + Join(tokens[1..])
  }

  /** Trimming takes white space off both ends, and nothing else. */
  lemma {:induction false} TrimMeaning(s: string) returns (before: string, after: string)
    ensures s == before + Trim(s) + after
    ensures (forall c | c in before :: IsWhite(c)) && (forall c | c in after :: IsWhite(c))
    ensures Trim(s) == "" || (!IsWhite(Trim(s)[0]) && !IsWhite(Trim(s)[|Trim(s)| - 1]))
    decreases |s|
  {
    if s != "" && IsWhite(s[0]) {
      before, after := TrimMeaning(s[1..]);
      before := [s[0]] + before;
    } else if s != "" && IsWhite(s[|s| - 1]) {
      before, after := TrimMeaning(s[..|s| - 1]);
      after := after + [s[|s| - 1]];
    } else {
      before, after := "", "";
    }
  }

  /** Element by element: what stands before the first comma, and then the rest of the header; an element
      that is only white space is left out. */
  lemma ParseMeaning(a: string, b: string)
    requires ',' !in a
    ensures Parse(a) == if Trim(a) == "" then [] else [Trim(a)]
    ensures Parse(a + "," + b) == (if Trim(a) == "" then [] else [Trim(a)]) + Parse(b)
  {
    SplitWhole(a);
    SplitAtComma(a, b);
    assert Split(a)[1..] == [] && Tokens([]) == [];
    assert ([a] + Split(b))[1..] == Split(b);
  }

  /** Non-empty, trimmed, comma-free. */
  predicate IsToken(t: string) {
    t != "" && ',' !in t && !IsWhite(t[0]) && !IsWhite(t[|t| - 1])
  }

  lemma {:induction false} SplitAtComma(a: string, b: string)
    requires ',' !in a
    ensures Split(a + "," + b) == [a] + Split(b)
  {
    if a == "" {
      assert (a + "," + b)[1..] == b;
    } else {
      SplitAtComma(a[1..], b);
      assert (a + "," + b)[1..] == a[1..] + "," + b;
      assert [a[0]] + a[1..] == a;
    }
  }

  lemma {:induction false} SplitWhole(a: string)
    requires ',' !in a
    ensures Split(a) == [a]
  {
    if a != "" {
      SplitWhole(a[1..]);
      assert [a[0]] + a[1..] == a;
    }
  }

  lemma {:induction false} SplitPieces(s: string)
    ensures forall i | 0 <= i < |Split(s)| :: ',' !in Split(s)[i]
  {
    if s != "" {
      SplitPieces(s[1..]);
    }
  }

  lemma TrimToken(t: string)
    requires IsToken(t)
    ensures Trim(t) == t
  {
  }

  /** A space before the first piece goes with the trimming. */
  lemma TokensAfterSpace(s: string)
    ensures Tokens(Split(" " + s)) == Tokens(Split(s))
  {
    assert (" " + s)[1..] == s;
    var rest := Split(s);
    assert Split(" " + s) == [" " + rest[0]] + rest[1..];
    assert (" " + rest[0])[1..] == rest[0];
  }

  lemma {:induction false} TrimStartShape(s: string)
    ensures TrimStart(s) == "" || !IsWhite(TrimStart(s)[0])
    ensures forall c | c in TrimStart(s) :: c in s
  {
    if s != "" && IsWhite(s[0]) {
      TrimStartShape(s[1..]);
    }
  }

  lemma {:induction false} TrimEndShape(s: string)
    ensures TrimEnd(s) <= s
    ensures TrimEnd(s) == "" || !IsWhite(TrimEnd(s)[|TrimEnd(s)| - 1])
  {
    if s != "" && IsWhite(s[|s| - 1]) {
      TrimEndShape(s[..|s| - 1]);
    }
  }

  lemma {:induction false} TokensAreTokens(pieces: seq<string>)
    requires forall i | 0 <= i < |pieces| :: ',' !in pieces[i]
    ensures forall i | 0 <= i < |Tokens(pieces)| :: IsToken(Tokens(pieces)[i])
  {
    if pieces != [] {
      TokensAreTokens(pieces[1..]);
      var p := pieces[0];
      TrimStartShape(p);
      TrimEndShape(TrimStart(p));
      assert Trim(p) != "" ==> IsToken(Trim(p));
    }
  }

  /** The printed list has a comma and a space between its tokens. */
  lemma {:induction false} JoinMeaning(tokens: seq<string>)
    requires tokens != [] && forall i | 0 <= i < |tokens| :: ',' !in tokens[i]
    ensures |Split(Join(tokens))| == |tokens| && Split(Join(tokens))[0] == tokens[0]
    ensures forall i | 1 <= i < |tokens| :: Split(Join(tokens))[i] == " " + tokens[i]
  {
    if |tokens| == 1 {
      SplitWhole(tokens[0]);
    } else {
      var tail := Join(tokens[1..]);
      JoinMeaning(tokens[1..]);
      assert Join(tokens) == tokens[0] + "," + (" " + tail);
      SplitAtComma(tokens[0], " " + tail);
      assert (" " + tail)[1..] == tail;
    }
  }

  /** Every list of tokens survives printing and parsing. */
  lemma {:induction false} ParseJoin(tokens: seq<string>)
    requires forall i | 0 <= i < |tokens| :: IsToken(tokens[i])
    ensures Parse(Join(tokens)) == tokens
  {
    if tokens == [] {
    } else if |tokens| == 1 {
      SplitWhole(tokens[0]);
      TrimToken(tokens[0]);
      assert Tokens([tokens[0]][1..]) == [];
    } else {
      ParseJoin(tokens[1..]);
      var tail := Join(tokens[1..]);
      assert Join(tokens) == tokens[0] + "," + (" " + tail);
      SplitAtComma(tokens[0], " " + tail);
      TokensAfterSpace(tail);
      TrimToken(tokens[0]);
      var pieces := Split(Join(tokens));
      assert pieces[1..] == Split(" " + tail);
    }
  }

  /** What the relay parsed is what a server parses from the agent's header, for any client header. */
  lemma ParseJoinParse(raw: string)
    ensures forall i | 0 <= i < |Parse(raw)| :: IsToken(Parse(raw)[i])
    ensures Parse(Join(Parse(raw))) == Parse(raw)
  {
    SplitPieces(raw);
    TokensAreTokens(Split(raw));
    ParseJoin(Parse(raw));
  }
}
