// The placeholder rewriter of the Postgres backend: '?' becomes '$n' outside
// string literals, quoted identifiers and line comments.

module Rebind {
  newtype byte = b: int | 0 <= b < 256

  type Text = seq<byte>

  const NEWLINE: byte := 10
  const DOUBLE_QUOTE: byte := 34
  const DOLLAR: byte := 36
  const QUOTE: byte := 39
  const DASH: byte := 45
  const MARK: byte := 63

  // ---- decimal numbers --------------------------------------------------------------------

  function Digit(d: nat): byte
    requires d < 10
  {
    (48 + d) as byte
  }

  function Decimal(n: nat): (t: Text)
    ensures |t| >= 1
  {
    if n < 10 then [Digit(n)] else Decimal(n / 10) + [Digit(n % 10)]
  }

  function Pow10(k: nat): (p: nat)
    ensures p >= 1
  {
    if k == 0 then 1 else 10 * Pow10(k - 1)
  }

  // What is printed once the digits of `rest` precede the tail.
  function WithTail(rest: nat, tail: Text): Text {
    if rest == 0 then tail else Decimal(rest) + tail
  }

  lemma LastDigit(rest: nat, tail: Text)
    requires rest > 0
    ensures WithTail(rest, tail) == WithTail(rest / 10, [Digit(rest % 10)] + tail)
  {
    if rest >= 10 {
      assert Decimal(rest) + tail == Decimal(rest / 10) + ([Digit(rest % 10)] + tail);
    }
  }

  lemma Shrinks(rest: nat, i: nat)
    requires 0 < rest < Pow10(i)
    ensures i > 0 && rest / 10 < Pow10(i - 1)
  {
  }

  // The buffer holds eight digits.
  method Itoa(n: nat) returns (t: Text)
    requires n < 100_000_000
    ensures t == Decimal(n)
  {
    if n < 10 {
      return [Digit(n)];
    }
    var buf := new byte[8](_ => 0);
    var i, rest: nat := 8, n;
    assert Pow10(8) == 100_000_000 by {
      assert Pow10(4) == 10_000 && Pow10(6) == 1_000_000;
    }
    while rest > 0
      invariant 0 <= i <= 8 && rest < Pow10(i)
      invariant Decimal(n) == WithTail(rest, buf[i..])
    {
      Shrinks(rest, i);
      ghost var tail := buf[i..];
      i := i - 1;
      buf[i] := Digit(rest % 10);
      assert buf[i..] == [Digit(rest % 10)] + tail;
      LastDigit(rest, tail);
      rest := rest / 10;
    }
    t := buf[i..];
  }

  // ---- the lexer ------------------------------------------------------------------------------

  // Where a literal that is open at i ends: after its closing quote, or at the end
  // of the text. A doubled quote does not close it.
  function LiteralEnd(q: Text, i: nat): (e: nat)
    requires i <= |q|
    ensures i <= e <= |q|
    decreases |q| - i
  {
    if i == |q| then i
    else if q[i] != QUOTE then LiteralEnd(q, i + 1)
    else if i + 1 < |q| && q[i + 1] == QUOTE then LiteralEnd(q, i + 2)
    else i + 1
  }

  function IdentifierEnd(q: Text, i: nat): (e: nat)
    requires i <= |q|
    ensures i <= e <= |q|
    decreases |q| - i
  {
    if i == |q| then i else if q[i] != DOUBLE_QUOTE then IdentifierEnd(q, i + 1) else i + 1
  }

  function CommentEnd(q: Text, i: nat): (e: nat)
    requires i <= |q|
    ensures i <= e <= |q|
    decreases |q| - i
  {
    if i == |q| then i else if q[i] != NEWLINE then CommentEnd(q, i + 1) else i + 1
  }

  predicate OpensComment(q: Text, i: nat)
    requires i < |q|
  {
    q[i] == DASH && i + 1 < |q| && q[i + 1] == DASH
  }

  // The end of the token that starts at i: a literal, a quoted identifier, a
  // comment with its line end, or a single byte.
  function TokenEnd(q: Text, i: nat): (e: nat)
    requires i < |q|
    ensures i < e <= |q|
  {
    if q[i] == QUOTE then LiteralEnd(q, i + 1)
    else if q[i] == DOUBLE_QUOTE then IdentifierEnd(q, i + 1)
    else if OpensComment(q, i) then CommentEnd(q, i + 2)
    else i + 1
  }

  // ---- the specification ------------------------------------------------------------------------

  function Placeholder(n: nat): Text {
    [DOLLAR] + Decimal(n)
  }

  // The text from a token start on, with its placeholders numbered from n + 1.
  function Rebound(q: Text, i: nat, n: nat): Text
    requires i <= |q|
    decreases |q| - i
  {
    if i == |q| then []
    else if q[i] == MARK then Placeholder(n + 1) + Rebound(q, i + 1, n + 1)
    else q[i..TokenEnd(q, i)] + Rebound(q, TokenEnd(q, i), n)
  }

  // The number of placeholders from a token start on.
  function Marks(q: Text, i: nat): nat
    requires i <= |q|
    decreases |q| - i
  {
    if i == |q| then 0
    else if q[i] == MARK then 1 + Marks(q, i + 1)
    else Marks(q, TokenEnd(q, i))
  }

  // Copies a literal's body.
  method CopyLiteral(q: Text, start: nat) returns (out: Text, i: nat)
    requires start <= |q|
    ensures start <= i <= |q| && i == LiteralEnd(q, start) && out == q[start..i]
  {
    i, out := start, [];
    while i < |q|
      invariant start <= i <= |q| && LiteralEnd(q, i) == LiteralEnd(q, start) && out == q[start..i]
    {
      out := out + [q[i]];
      if q[i] == QUOTE {
        if i + 1 < |q| && q[i + 1] == QUOTE {
          out := out + [q[i + 1]];
          i := i + 2;
          continue;
        }
        i := i + 1;
        return;
      }
      i := i + 1;
    }
  }

  method CopyIdentifier(q: Text, start: nat) returns (out: Text, i: nat)
    requires start <= |q|
    ensures start <= i <= |q| && i == IdentifierEnd(q, start) && out == q[start..i]
  {
    i, out := start, [];
    while i < |q|
      invariant start <= i <= |q| && IdentifierEnd(q, i) == IdentifierEnd(q, start) && out == q[start..i]
    {
      out := out + [q[i]];
      i := i + 1;
      if q[i - 1] == DOUBLE_QUOTE {
        return;
      }
    }
  }

  method CopyComment(q: Text, start: nat) returns (out: Text, i: nat)
    requires start < |q| && OpensComment(q, start)
    ensures start < i <= |q| && i == CommentEnd(q, start + 2) && out == q[start..i]
  {
    i, out := start, [];
    assert CommentEnd(q, start + 1) == CommentEnd(q, start + 2);
    while i < |q| && q[i] != NEWLINE
      invariant start <= i <= |q| && out == q[start..i]
      invariant CommentEnd(q, i) == CommentEnd(q, start)
    {
      out := out + [q[i]];
      i := i + 1;
    }
    if i < |q| {
      out := out + [NEWLINE];
      i := i + 1;
    }
  }

  // Copies the token at i, which is not a placeholder.
  method CopyToken(q: Text, i: nat) returns (out: Text, e: nat)
    requires i < |q|
    ensures e == TokenEnd(q, i) && out == q[i..e]
  {
    var c := q[i];
    if c == QUOTE {
      out, e := CopyLiteral(q, i + 1);
      out := [c] + out;
    } else if c == DOUBLE_QUOTE {
      out, e := CopyIdentifier(q, i + 1);
      out := [c] + out;
    } else if c == DASH && i + 1 < |q| && q[i + 1] == DASH {
      out, e := CopyComment(q, i);
    } else {
      out, e := [c], i + 1;
    }
  }

  method RebindQuery(q: Text) returns (out: Text)
    requires Marks(q, 0) < 100_000_000
    ensures out == Rebound(q, 0, 0)
  {
    out := [];
    var i, n: nat := 0, 0;
    while i < |q|
      invariant i <= |q| && out + Rebound(q, i, n) == Rebound(q, 0, 0)
      invariant n + Marks(q, i) == Marks(q, 0)
    {
      ghost var before := out;
      if q[i] == MARK {
        n := n + 1;
        var t := Itoa(n);
        out := out + [DOLLAR] + t;
        MarkSpliced(q, i, n - 1, before, out);
        i := i + 1;
      } else {
        var t, e := CopyToken(q, i);
        out := out + t;
        Spliced(q, i, n, before, out);
        i := e;
      }
    }
    assert out + [] == out;
  }

  lemma Reassociate(a: Text, b: Text, c: Text)
    ensures a + (b + c) == a + b + c
  {
  }

  lemma MarkSpliced(q: Text, i: nat, n: nat, before: Text, out: Text)
    requires i < |q| && q[i] == MARK && out == before + [DOLLAR] + Decimal(n + 1)
    ensures before + Rebound(q, i, n) == out + Rebound(q, i + 1, n + 1)
    ensures Marks(q, i) == 1 + Marks(q, i + 1)
  {
    assert out == before + Placeholder(n + 1);
    Reassociate(before, Placeholder(n + 1), Rebound(q, i + 1, n + 1));
  }

  lemma Spliced(q: Text, i: nat, n: nat, before: Text, out: Text)
    requires i < |q| && q[i] != MARK && out == before + q[i..TokenEnd(q, i)]
    ensures before + Rebound(q, i, n) == out + Rebound(q, TokenEnd(q, i), n)
    ensures Marks(q, i) == Marks(q, TokenEnd(q, i))
  {
    Reassociate(before, q[i..TokenEnd(q, i)], Rebound(q, TokenEnd(q, i), n));
  }

  // ---- what the rewriting changes --------------------------------------------------------------

  // The tokens from a token start on.
  function Tokens(q: Text, i: nat): seq<Text>
    requires i <= |q|
    decreases |q| - i
  {
    if i == |q| then [] else [q[i..TokenEnd(q, i)]] + Tokens(q, TokenEnd(q, i))
  }

  function Joined(pieces: seq<Text>): Text {
    if pieces == [] then [] else pieces[0] + Joined(pieces[1..])
  }

  // The placeholders among the first k tokens.
  function MarksBefore(tokens: seq<Text>, k: nat): nat
    requires k <= |tokens|
  {
    if k == 0 then 0 else (if tokens[0] == [MARK] then 1 else 0) + MarksBefore(tokens[1..], k - 1)
  }

  // The tokens with their placeholders numbered from n + 1.
  function Numbered(tokens: seq<Text>, n: nat): (r: seq<Text>)
    ensures |r| == |tokens|
  {
    if tokens == [] then []
    else if tokens[0] == [MARK] then [Placeholder(n + 1)] + Numbered(tokens[1..], n + 1)
    else [tokens[0]] + Numbered(tokens[1..], n)
  }

  // A placeholder's number is its place among the placeholders; other tokens stay.
  lemma {:induction false} NumberedInOrder(tokens: seq<Text>, n: nat, k: nat)
    requires k < |tokens|
    ensures Numbered(tokens, n)[k] == if tokens[k] == [MARK] then Placeholder(n + MarksBefore(tokens, k) + 1) else tokens[k]
    decreases k
  {
    if k > 0 {
      NumberedInOrder(tokens[1..], n + if tokens[0] == [MARK] then 1 else 0, k - 1);
    }
  }

  lemma TokenIsMark(q: Text, i: nat)
    requires i < |q|
    ensures q[i..TokenEnd(q, i)] == [MARK] <==> q[i] == MARK
  {
  }

  // The tokens make up the query, and the rewritten query is made up of the same
  // tokens but for the placeholders, which are numbered in order.
  lemma {:induction false} OnlyPlaceholdersChange(q: Text, i: nat, n: nat)
    requires i <= |q|
    ensures Joined(Tokens(q, i)) == q[i..]
    ensures Joined(Numbered(Tokens(q, i), n)) == Rebound(q, i, n)
    decreases |q| - i
  {
    if i < |q| {
      var e, tokens := TokenEnd(q, i), Tokens(q, i);
      TokenIsMark(q, i);
      var n1 := n + if q[i] == MARK then 1 else 0;
      OnlyPlaceholdersChange(q, e, n1);
      assert tokens[1..] == Tokens(q, e);
      assert q[i..] == q[i..e] + q[e..];
    }
  }

  // ---- the rewriting, byte by byte ---------------------------------------------------------------

  datatype Mode = Code | Literal | Identifier | Comment

  // What a reader is in when it comes to byte i. Two dashes outside quotes start a
  // comment, which the end of the line closes; a quote closes what it opened, so that a
  // doubled one closes and opens again.
  function ModeAt(q: Text, i: nat): Mode
    requires i <= |q|
  {
    if i == 0 then Code
    else
      var b := q[i - 1];
      match ModeAt(q, i - 1)
      case Code =>
        if b == QUOTE then Literal
        else if b == DOUBLE_QUOTE then Identifier
        else if b == DASH && i < |q| && q[i] == DASH then Comment
        else Code
      case Literal => if b == QUOTE then Code else Literal
      case Identifier => if b == DOUBLE_QUOTE then Code else Identifier
      case Comment => if b == NEWLINE then Code else Comment
  }

  predicate IsPlaceholder(q: Text, i: nat) {
    i < |q| && q[i] == MARK && ModeAt(q, i).Code?
  }

  // Every byte is copied, but for the placeholders.
  function Rewritten(q: Text, i: nat, n: nat): Text
    requires i <= |q|
    decreases |q| - i
  {
    if i == |q| then []
    else if IsPlaceholder(q, i) then Placeholder(n + 1) + Rewritten(q, i + 1, n + 1)
    else [q[i]] + Rewritten(q, i + 1, n)
  }

  // No placeholder from i up to e, and code again at e.
  ghost predicate Plain(q: Text, i: nat, e: nat) {
    i <= e <= |q| && (forall k: nat | i <= k < e :: !IsPlaceholder(q, k)) && (e < |q| ==> ModeAt(q, e).Code?)
  }

  lemma ByteCopied(q: Text, i: nat, n: nat)
    requires i < |q| && !IsPlaceholder(q, i)
    ensures Rewritten(q, i, n) == [q[i]] + Rewritten(q, i + 1, n)
  {
  }

  lemma {:induction false} PlainCopies(q: Text, i: nat, e: nat, n: nat)
    requires Plain(q, i, e)
    ensures Rewritten(q, i, n) == q[i..e] + Rewritten(q, e, n)
    decreases e - i
  {
    if i < e {
      ByteCopied(q, i, n);
      PlainCopies(q, i + 1, e, n);
      assert q[i..e] == [q[i]] + q[i + 1..e];
      Reassociate([q[i]], q[i + 1..e], Rewritten(q, e, n));
    }
  }

  lemma {:induction false} LiteralIsPlain(q: Text, i: nat)
    requires i <= |q| && ModeAt(q, i).Literal?
    ensures Plain(q, i, LiteralEnd(q, i))
    decreases |q| - i
  {
    if i < |q| {
      if q[i] != QUOTE {
        LiteralIsPlain(q, i + 1);
      } else if i + 1 < |q| && q[i + 1] == QUOTE {
        assert ModeAt(q, i + 1).Code? && ModeAt(q, i + 2).Literal?;
        LiteralIsPlain(q, i + 2);
      }
    }
  }

  lemma {:induction false} IdentifierIsPlain(q: Text, i: nat)
    requires i <= |q| && ModeAt(q, i).Identifier?
    ensures Plain(q, i, IdentifierEnd(q, i))
    decreases |q| - i
  {
    if i < |q| && q[i] != DOUBLE_QUOTE {
      IdentifierIsPlain(q, i + 1);
    }
  }

  lemma {:induction false} CommentIsPlain(q: Text, i: nat)
    requires i <= |q| && ModeAt(q, i).Comment?
    ensures Plain(q, i, CommentEnd(q, i))
    decreases |q| - i
  {
    if i < |q| && q[i] != NEWLINE {
      CommentIsPlain(q, i + 1);
    }
  }

  lemma TokenIsPlain(q: Text, i: nat)
    requires i < |q| && q[i] != MARK && ModeAt(q, i).Code?
    ensures Plain(q, i, TokenEnd(q, i))
  {
    if q[i] == QUOTE {
      LiteralIsPlain(q, i + 1);
    } else if q[i] == DOUBLE_QUOTE {
      IdentifierIsPlain(q, i + 1);
    } else if OpensComment(q, i) {
      assert ModeAt(q, i + 1).Comment? && ModeAt(q, i + 2).Comment?;
      CommentIsPlain(q, i + 2);
    }
  }

  // Token by token or byte by byte, the rewriting is the same: exactly the '?' outside
  // literals, quoted identifiers and line comments are placeholders.
  lemma {:induction false} ReboundIsRewritten(q: Text, i: nat, n: nat)
    requires i <= |q| && (i < |q| ==> ModeAt(q, i).Code?)
    ensures Rebound(q, i, n) == Rewritten(q, i, n)
    decreases |q| - i
  {
    if i < |q| {
      if q[i] == MARK {
        ReboundIsRewritten(q, i + 1, n + 1);
      } else {
        TokenIsPlain(q, i);
        ReboundIsRewritten(q, TokenEnd(q, i), n);
        PlainCopies(q, i, TokenEnd(q, i), n);
      }
    }
  }

  // ---- the way back ---------------------------------------------------------------------------------

  predicate HasPrefix(s: Text, j: nat, t: Text)
    requires j <= |s|
  {
    j + |t| <= |s| && forall k | 0 <= k < |t| :: s[j + k] == t[k]
  }

  // Undoes the rewriting: the next placeholder number, where it follows a '$' at a
  // token start, becomes a '?' again.
  function Unbound(s: Text, j: nat, n: nat): Text
    requires j <= |s|
    decreases |s| - j
  {
    if j == |s| then []
    else if HasPrefix(s, j, Placeholder(n + 1)) then [MARK] + Unbound(s, j + |Placeholder(n + 1)|, n + 1)
    else s[j..TokenEnd(s, j)] + Unbound(s, TokenEnd(s, j), n)
  }

  // No '$' outside literals, quoted identifiers and comments.
  predicate NoDollar(q: Text, i: nat)
    requires i <= |q|
    decreases |q| - i
  {
    i < |q| ==> q[i] != DOLLAR && NoDollar(q, TokenEnd(q, i))
  }

  // s continues at j as q does at i, up to e, and what follows there opens no
  // quote and no comment that q's does not.
  predicate Mirrors(q: Text, i: nat, e: nat, s: Text, j: nat) {
    && i <= e <= |q| && j + (e - i) <= |s| && q[i..e] == s[j..j + (e - i)]
    && (e == |q| ==> j + (e - i) == |s|)
    && (e < |q| && j + (e - i) < |s| ==> s[j + (e - i)] == q[e] || s[j + (e - i)] == DOLLAR)
  }

  lemma {:induction false} LiteralMirrored(q: Text, i: nat, s: Text, j: nat)
    requires i <= |q| && Mirrors(q, i, LiteralEnd(q, i), s, j)
    ensures LiteralEnd(s, j) == j + (LiteralEnd(q, i) - i)
    decreases |q| - i
  {
    var e := LiteralEnd(q, i);
    if i < |q| {
      assert q[i..e][0] == s[j..j + (e - i)][0];
      if q[i] != QUOTE {
        MirrorsFrom(q, i, e, s, j, 1);
        LiteralMirrored(q, i + 1, s, j + 1);
      } else if i + 1 < |q| && q[i + 1] == QUOTE {
        assert q[i..e][1] == s[j..j + (e - i)][1];
        MirrorsFrom(q, i, e, s, j, 2);
        LiteralMirrored(q, i + 2, s, j + 2);
      }
    }
  }

  lemma MirrorsFrom(q: Text, i: nat, e: nat, s: Text, j: nat, k: nat)
    requires Mirrors(q, i, e, s, j) && i + k <= e
    ensures Mirrors(q, i + k, e, s, j + k)
  {
    assert q[i + k..e] == q[i..e][k..] && s[j + k..j + (e - i)] == s[j..j + (e - i)][k..];
  }

  lemma {:induction false} IdentifierMirrored(q: Text, i: nat, s: Text, j: nat)
    requires i <= |q| && Mirrors(q, i, IdentifierEnd(q, i), s, j)
    ensures IdentifierEnd(s, j) == j + (IdentifierEnd(q, i) - i)
    decreases |q| - i
  {
    var e := IdentifierEnd(q, i);
    if i < |q| {
      assert q[i..e][0] == s[j..j + (e - i)][0];
      if q[i] != DOUBLE_QUOTE {
        MirrorsFrom(q, i, e, s, j, 1);
        IdentifierMirrored(q, i + 1, s, j + 1);
      }
    }
  }

  lemma {:induction false} CommentMirrored(q: Text, i: nat, s: Text, j: nat)
    requires i <= |q| && Mirrors(q, i, CommentEnd(q, i), s, j)
    ensures CommentEnd(s, j) == j + (CommentEnd(q, i) - i)
    decreases |q| - i
  {
    var e := CommentEnd(q, i);
    if i < |q| {
      assert q[i..e][0] == s[j..j + (e - i)][0];
      if q[i] != NEWLINE {
        MirrorsFrom(q, i, e, s, j, 1);
        CommentMirrored(q, i + 1, s, j + 1);
      }
    }
  }

  // A token is lexed the same way in the rewritten query.
  lemma TokenMirrored(q: Text, i: nat, s: Text, j: nat)
    requires i < |q| && Mirrors(q, i, TokenEnd(q, i), s, j)
    ensures j < |s| && s[j] == q[i] && TokenEnd(s, j) == j + (TokenEnd(q, i) - i)
  {
    var e := TokenEnd(q, i);
    assert q[i..e][0] == s[j..j + (e - i)][0];
    if q[i] == QUOTE {
      MirrorsFrom(q, i, e, s, j, 1);
      LiteralMirrored(q, i + 1, s, j + 1);
    } else if q[i] == DOUBLE_QUOTE {
      MirrorsFrom(q, i, e, s, j, 1);
      IdentifierMirrored(q, i + 1, s, j + 1);
    } else if OpensComment(q, i) {
      assert q[i..e][1] == s[j..j + (e - i)][1];
      MirrorsFrom(q, i, e, s, j, 2);
      CommentMirrored(q, i + 2, s, j + 2);
    }
  }

  // What follows a token in the rewritten query starts with the same byte, or is a
  // placeholder.
  lemma NextByte(q: Text, i: nat, n: nat)
    requires i <= |q|
    ensures Rebound(q, i, n) == [] <==> i == |q|
    ensures i < |q| ==> Rebound(q, i, n)[0] == if q[i] == MARK then DOLLAR else q[i]
  {
  }

  lemma Cut(s: Text, j: nat, a: Text, b: Text)
    requires j <= |s| && s[j..] == a + b
    ensures j + |a| <= |s| && s[j..j + |a|] == a && s[j + |a|..] == b
  {
    assert s[j..j + |a|] == s[j..][..|a|] && s[j + |a|..] == s[j..][|a|..];
  }

  // At a token that is no placeholder the two texts run in step.
  lemma TokenBack(q: Text, i: nat, s: Text, j: nat, n: nat) returns (e: nat, j1: nat)
    requires i < |q| && q[i] != MARK && q[i] != DOLLAR && j <= |s| && s[j..] == Rebound(q, i, n)
    ensures i < e <= |q| && e == TokenEnd(q, i)
    ensures j < |s| && s[j] == q[i] && j1 <= |s| && j1 == TokenEnd(s, j)
    ensures s[j..j1] == q[i..e] && s[j1..] == Rebound(q, e, n)
  {
    e, j1 := TokenEnd(q, i), j + (TokenEnd(q, i) - i);
    Cut(s, j, q[i..e], Rebound(q, e, n));
    NextByte(q, e, n);
    assert j + (e - i) < |s| ==> s[j + (e - i)] == s[j + (e - i)..][0];
    TokenMirrored(q, i, s, j);
  }

  lemma PrefixAt(s: Text, j: nat, p: Text, rest: Text)
    requires j <= |s| && s[j..] == p + rest
    ensures HasPrefix(s, j, p)
  {
    Cut(s, j, p, rest);
    var t := s[j..j + |p|];
    forall k | 0 <= k < |p| ensures s[j + k] == p[k] {
      assert t[k] == s[j + k];
    }
  }

  lemma MarkFront(q: Text, i: nat, s: Text, j: nat, n: nat) returns (j1: nat)
    requires i < |q| && q[i] == MARK && NoDollar(q, i) && j <= |s| && s[j..] == Rebound(q, i, n)
    ensures NoDollar(q, i + 1) && HasPrefix(s, j, Placeholder(n + 1))
    ensures j1 == j + |Placeholder(n + 1)| <= |s| && s[j1..] == Rebound(q, i + 1, n + 1)
  {
    j1 := j + |Placeholder(n + 1)|;
    Cut(s, j, Placeholder(n + 1), Rebound(q, i + 1, n + 1));
    PrefixAt(s, j, Placeholder(n + 1), Rebound(q, i + 1, n + 1));
  }

  lemma Headed(q: Text, i: nat)
    requires i < |q|
    ensures q[i..] == [q[i]] + q[i + 1..]
  {
  }

  // A placeholder of the rewritten text is read back as a '?'.
  lemma MarkStep(q: Text, i: nat, s: Text, j: nat, j1: nat, n: nat)
    requires i < |q| && q[i] == MARK && j <= |s| && HasPrefix(s, j, Placeholder(n + 1))
    requires j1 == j + |Placeholder(n + 1)| && Unbound(s, j1, n + 1) == q[i + 1..]
    ensures Unbound(s, j, n) == q[i..]
  {
    Headed(q, i);
  }

  lemma TokenStep(q: Text, i: nat, e: nat, s: Text, j: nat, j1: nat, n: nat)
    requires i < e <= |q| && j < j1 <= |s| && s[j] == q[i] && q[i] != DOLLAR && j1 == TokenEnd(s, j)
    requires s[j..j1] == q[i..e] && Unbound(s, j1, n) == q[e..]
    ensures Unbound(s, j, n) == q[i..]
  {
    assert Placeholder(n + 1)[0] == DOLLAR;
    assert q[i..] == q[i..e] + q[e..];
  }

  lemma TokenFront(q: Text, i: nat)
    requires i < |q| && q[i] != MARK && NoDollar(q, i)
    ensures q[i] != DOLLAR && NoDollar(q, TokenEnd(q, i))
  {
  }

  // Rewriting loses nothing: a query without '$' outside its quotes and comments
  // can be read back.
  lemma {:induction false} RoundTrip(q: Text, i: nat, s: Text, j: nat, n: nat)
    requires i <= |q| && NoDollar(q, i) && j <= |s| && s[j..] == Rebound(q, i, n)
    ensures Unbound(s, j, n) == q[i..]
    decreases |q| - i
  {
    if i == |q| {
      assert j == |s|;
    } else if q[i] == MARK {
      var j1 := MarkFront(q, i, s, j, n);
      RoundTrip(q, i + 1, s, j1, n + 1);
      MarkStep(q, i, s, j, j1, n);
    } else {
      TokenFront(q, i);
      var e, j1 := TokenBack(q, i, s, j, n);
      RoundTrip(q, e, s, j1, n);
      TokenStep(q, i, e, s, j, j1, n);
    }
  }

  // The inverse of the rewriting, on every query that has no '$' of its own.
  lemma RebindRoundTrip(q: Text)
    requires NoDollar(q, 0)
    ensures Unbound(Rebound(q, 0, 0), 0, 0) == q
  {
    var s := Rebound(q, 0, 0);
    assert s[0..] == s && q[0..] == q;
    RoundTrip(q, 0, s, 0, 0);
  }
}
