/** JSON values and JSON Pointer evaluation (section 4 of RFC 6901). */
module JsonPointer {
  import opened Common

  /** `Hash(v)` is the rendered digest of `v`: equal digests name equal values. */
  datatype Json =
    | Null
    | Bool(value: bool)
    | Number(number: int)
    | Str(text: string)
    | Arr(items: seq<Json>)
    | Obj(fields: map<string, Json>)
    | Hash(of: Json)

  /** Indexing that yields null for anything missing. */
  function At(j: Json, name: string): Json {
    if j.Obj? && name in j.fields then j.fields[name] else Null
  }

  function Split(s: string): (r: seq<string>)
    ensures |r| > 0
  {
    if s == "" then [""]
    else if s[0] == '/' then [""] + Split(s[1..])
    else
      var rest := Split(s[1..]);
      [[s[0]] + rest[0]] + rest[1..]
  }

  /** Replaces `~` followed by `digit` with `replacement`, left to right. */
  function ReplaceTilde(s: string, digit: char, replacement: char): string {
    if s == "" then ""
    else if |s| >= 2 && s[0] == '~' && s[1] == digit then [replacement] + ReplaceTilde(s[2..], digit, replacement)
    else [s[0]] + ReplaceTilde(s[1..], digit, replacement)
  }

  function Unescape(s: string): string {
    ReplaceTilde(ReplaceTilde(s, '1', '/'), '0', '~')
  }

  predicate IsDigits(s: string) {
    s != "" && forall i | 0 <= i < |s| :: '0' <= s[i] <= '9'
  }

  function Decimal(s: string): nat
    requires forall i | 0 <= i < |s| :: '0' <= s[i] <= '9'
  {
    if s == "" then 0 else Decimal(s[..|s| - 1]) * 10 + (s[|s| - 1] as int - '0' as int)
  }

  /** An array index is a decimal without sign or leading zero. */
  function ArrayIndex(token: string): Option<nat> {
    if IsDigits(token) && (token[0] != '0' || |token| == 1) then Some(Decimal(token)) else None
  }

  function Child(j: Json, token: string): Option<Json> {
    match j
    case Obj(fields) => if token in fields then Some(fields[token]) else None
    case Arr(items) =>
      var i := ArrayIndex(token);
      if i.Some? && i.value < |items| then Some(items[i.value]) else None
    case _ => None
  }

  function Walk(j: Json, tokens: seq<string>): Option<Json> {
    if tokens == [] then Some(j)
    else
      match Child(j, tokens[0])
      case None => None
      case Some(next) => Walk(next, tokens[1..])
  }

  function UnescapeAll(tokens: seq<string>): (r: seq<string>)
    ensures |r| == |tokens| && forall i | 0 <= i < |r| :: r[i] == Unescape(tokens[i])
  {
    if tokens == [] then [] else [Unescape(tokens[0])] + UnescapeAll(tokens[1..])
  }

  function Pointer(j: Json, pointer: string): Option<Json> {
    if pointer == "" then Some(j)
    else if pointer[0] != '/' then None
    else Walk(j, UnescapeAll(Split(pointer)[1..]))
  }

  // ---- writing pointers ----

  function EscapeChar(c: char): string {
    if c == '~' then "~0" else if c == '/' then "~1" else [c]
  }

  function Escape(token: string): string {
    if token == "" then "" else EscapeChar(token[0]) + Escape(token[1..])
  }

  function Render(tokens: seq<string>): string {
    if tokens == [] then "" else "/" + Escape(tokens[0]) + Render(tokens[1..])
  }

  /** A token with its slashes restored and its tildes still escaped. */
  function HalfEscape(token: string): string {
    if token == "" then ""
    else (if token[0] == '~' then "~0" else [token[0]]) + HalfEscape(token[1..])
  }

  lemma {:induction false} SlashesRestored(token: string)
    ensures ReplaceTilde(Escape(token), '1', '/') == HalfEscape(token)
  {
    if token != "" {
      SlashesRestored(token[1..]);
      var e := Escape(token);
      var rest := Escape(token[1..]);
      if token[0] == '~' {
        assert e[1..] == "0" + rest && e[1..][1..] == rest;
      } else if token[0] == '/' {
        assert e[2..] == rest;
      } else {
        assert e[1..] == rest;
      }
    }
  }

  lemma {:induction false} TildesRestored(token: string)
    ensures ReplaceTilde(HalfEscape(token), '0', '~') == token
  {
    if token != "" {
      TildesRestored(token[1..]);
      var h := HalfEscape(token);
      var rest := HalfEscape(token[1..]);
      if token[0] == '~' {
        assert h[2..] == rest;
      } else {
        assert h[1..] == rest;
      }
      assert token == [token[0]] + token[1..];
    }
  }

  /** Restoring `~1` before `~0` undoes escaping for every token. */
  lemma UnescapeUndoesEscape(token: string)
    ensures Unescape(Escape(token)) == token
  {
    SlashesRestored(token);
    TildesRestored(token);
  }

  lemma EscapeHasNoSlash(token: string)
    ensures '/' !in Escape(token)
  {
  }

  lemma {:induction false} SplitPlain(plain: string, rest: string)
    requires rest == "" || rest[0] == '/'
    ensures '/' !in plain ==> Split(plain + rest) == [plain] + (if rest == "" then [] else Split(rest)[1..])
  {
    if '/' !in plain {
      if plain == "" {
        assert plain + rest == rest;
      } else {
        SplitPlain(plain[1..], rest);
        assert (plain + rest)[1..] == plain[1..] + rest;
        assert plain == [plain[0]] + plain[1..];
      }
    }
  }

  function EscapeAll(tokens: seq<string>): seq<string> {
    if tokens == [] then [] else [Escape(tokens[0])] + EscapeAll(tokens[1..])
  }

  lemma {:induction false} SplitRendered(tokens: seq<string>)
    requires tokens != []
    ensures Split(Render(tokens)) == [""] + EscapeAll(tokens)
  {
    hide Escape;
    var e, rest := Escape(tokens[0]), Render(tokens[1..]);
    EscapeHasNoSlash(tokens[0]);
    SplitPlain(e, rest);
    assert Split(e + rest) == EscapeAll(tokens) by {
      hide Split;
      if tokens[1..] != [] {
        SplitRendered(tokens[1..]);
        assert Split(rest)[1..] == EscapeAll(tokens[1..]);
      }
    }
    assert Render(tokens) == "/" + (e + rest);
    SplitSlash(e + rest);
  }

  lemma SplitSlash(s: string)
    ensures Split("/" + s) == [""] + Split(s)
  {
    assert ("/" + s)[1..] == s;
  }

  lemma {:induction false} UnescapeAllUndoes(tokens: seq<string>)
    ensures UnescapeAll(EscapeAll(tokens)) == tokens
  {
    if tokens != [] {
      UnescapeAllUndoes(tokens[1..]);
      UnescapeUndoesEscape(tokens[0]);
      assert tokens == [tokens[0]] + tokens[1..];
    }
  }

  /** Evaluating a rendered pointer walks exactly the tokens it was rendered from. */
  lemma PointerWalksTokens(j: Json, tokens: seq<string>)
    ensures Pointer(j, Render(tokens)) == Walk(j, tokens)
  {
    if tokens != [] {
      SplitRendered(tokens);
      assert Split(Render(tokens))[1..] == EscapeAll(tokens);
      UnescapeAllUndoes(tokens);
    }
  }

  /** Every tilde starts an escape. */
  predicate TildesOk(s: string) {
    forall i | 0 <= i < |s| && s[i] == '~' :: i + 1 < |s| && (s[i + 1] == '0' || s[i + 1] == '1')
  }

  lemma TildesOkAfter(s: string, n: nat)
    requires TildesOk(s) && n <= |s|
    ensures TildesOk(s[n..])
  {
    forall i | 0 <= i < |s[n..]| && s[n..][i] == '~'
      ensures i + 1 < |s[n..]| && (s[n..][i + 1] == '0' || s[n..][i + 1] == '1')
    {
      assert s[n + i] == '~';
    }
  }

  lemma SlashFirst(s: string, rest: seq<string>)
    requires s != "" && s[0] == '/' && rest != [] && Escape(rest[0]) + Render(rest[1..]) == s[1..]
    ensures Escape("") + Render(rest) == s
  {
    RenderUnfolds(rest);
    assert Escape("") == "";
    hide Escape, Render;
    Glue("/", Escape(rest[0]), Render(rest[1..]));
    assert "/" + s[1..] == s;
  }

  lemma RenderUnfolds(tokens: seq<string>)
    requires tokens != []
    ensures Render(tokens) == "/" + Escape(tokens[0]) + Render(tokens[1..])
  {
  }

  lemma Glue(a: string, b: string, c: string)
    ensures (a + b) + c == a + (b + c)
  {
  }

  lemma CharFirst(s: string, n: nat, c: char, token: string, after: string)
    requires n <= |s| && EscapeChar(c) == s[..n] && Escape(token) + after == s[n..]
    ensures Escape([c] + token) + after == s
  {
    EscapeFirst(c, token);
    hide Escape, EscapeChar;
    assert (s[..n] + Escape(token)) + after == s[..n] + s[n..] == s;
  }

  /** Reads a token and the tokens after it. */
  lemma {:induction false} ReadTokens(s: string) returns (tokens: seq<string>)
    requires TildesOk(s)
    ensures tokens != [] && Escape(tokens[0]) + Render(tokens[1..]) == s
    decreases |s|
  {
    if s == "" {
      tokens := [""];
    } else if s[0] == '/' {
      TildesOkAfter(s, 1);
      var rest := ReadTokens(s[1..]);
      hide TildesOk, Escape, Render;
      SlashFirst(s, rest);
      tokens := [""] + rest;
      assert tokens[1..] == rest;
    } else {
      var n := if s[0] == '~' then 2 else 1;
      var c := if s[0] == '~' && s[1] == '1' then '/' else s[0];
      TildesOkAfter(s, n);
      var rest := ReadTokens(s[n..]);
      assert EscapeChar(c) == s[..n];
      hide TildesOk, Escape, Render, EscapeChar;
      CharFirst(s, n, c, rest[0], Render(rest[1..]));
      tokens := [[c] + rest[0]] + rest[1..];
      assert tokens[1..] == rest[1..];
    }
  }

  lemma EscapeFirst(c: char, token: string)
    ensures Escape([c] + token) == EscapeChar(c) + Escape(token)
  {
    assert ([c] + token)[1..] == token;
  }

  /** Every absolute pointer whose tildes are escapes is the rendering of some tokens, and evaluating it walks them. */
  lemma PointerIsRendered(s: string) returns (tokens: seq<string>)
    requires s != "" && s[0] == '/' && TildesOk(s)
    ensures tokens != [] && Render(tokens) == s && forall j :: Pointer(j, s) == Walk(j, tokens)
  {
    TildesOkAfter(s, 1);
    tokens := ReadTokens(s[1..]);
    assert Render(tokens) == "/" + (Escape(tokens[0]) + Render(tokens[1..])) == s;
    forall j
      ensures Pointer(j, s) == Walk(j, tokens)
    {
      PointerWalksTokens(j, tokens);
    }
  }
}
