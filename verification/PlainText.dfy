/** Untrusted text made safe for a terminal. */
module PlainText {
  import opened Seqs

  const TAB_SPACES := "    "
  const REPLACEMENT := '\U{FFFD}'
  const ESC := '\U{001B}'

  predicate IsControl(c: char) {
    c <= '\U{001F}' || '\U{007F}' <= c <= '\U{009F}'
  }

  /** Control characters, and the invisible ones that change how text is displayed. */
  predicate IsDisplayControl(c: char) {
    || IsControl(c)
    || c == '\U{061C}' || c == '\U{00AD}' || c == '\U{200B}'
    || '\U{200E}' <= c <= '\U{200F}'
    || '\U{202A}' <= c <= '\U{202E}'
    || '\U{2060}' <= c <= '\U{2064}'
    || '\U{2066}' <= c <= '\U{206F}'
    || c == '\U{FEFF}'
    || '\U{FFF9}' <= c <= '\U{FFFB}'
  }

  /** What normalized text may consist of. */
  predicate Clean(s: string) {
    forall c :: c in s ==> c == '\n' || !IsDisplayControl(c)
  }

  // ---------- what is skipped ----------

  predicate IsFinal(c: char) {
    '@' <= c <= '~'
  }

  predicate IsIntermediate(c: char) {
    ' ' <= c <= '/'
  }

  /** The text after a control sequence whose introducer has been read. */
  function AfterCsi(s: string): (r: string)
    ensures |r| <= |s|
  {
    if s == "" then "" else if IsFinal(s[0]) then s[1..] else AfterCsi(s[1..])
  }

  /** The text after an operating system command whose introducer has been read. */
  function AfterOsc(s: string): (r: string)
    ensures |r| <= |s|
  {
    if s == "" then ""
    else if s[0] == '\U{0007}' then s[1..]
    else if s[0] == ESC && |s| > 1 && s[1] == '\\' then s[2..]
    else AfterOsc(s[1..])
  }

  function AfterIntermediates(s: string): (r: string)
    ensures |r| <= |s|
  {
    if s != "" && IsIntermediate(s[0]) then AfterIntermediates(s[1..]) else s
  }

  /** The text after an escape sequence, or nothing when the escape starts none. */
  function AfterEscape(s: string): (r: (bool, string))
    ensures |r.1| <= |s|
  {
    if s == "" then (false, s)
    else if s[0] == '[' then (true, AfterCsi(s[1..]))
    else if s[0] == ']' then (true, AfterOsc(s[1..]))
    else if IsIntermediate(s[0]) then
      var rest := AfterIntermediates(s[1..]);
      (true, if rest != "" && '0' <= rest[0] <= '~' then rest[1..] else rest)
    else (false, s)
  }

  function Normalized(s: string): string
    decreases |s|
  {
    if s == "" then ""
    else
      var c, rest := s[0], s[1..];
      if c == '\r' then "\n" + Normalized(if rest != "" && rest[0] == '\n' then rest[1..] else rest)
      else if c == '\n' then "\n" + Normalized(rest)
      else if c == '\t' then TAB_SPACES + Normalized(rest)
      else if c == ESC then
        var (escaped, after) := AfterEscape(rest);
        (if escaped then "" else [REPLACEMENT]) + Normalized(after)
      else if c == '\U{009B}' then Normalized(AfterCsi(rest))
      else if c == '\U{009D}' then Normalized(AfterOsc(rest))
      else if IsDisplayControl(c) then [REPLACEMENT] + Normalized(rest)
      else [c] + Normalized(rest)
  }

  // ---------- the loops ----------

  method ConsumeCsi(input: string, at: nat) returns (next: nat)
    requires at <= |input|
    ensures at <= next <= |input| && input[next..] == AfterCsi(input[at..])
  {
    next := at;
    while next < |input|
      invariant at <= next <= |input| && AfterCsi(input[next..]) == AfterCsi(input[at..])
    {
      var value := input[next];
      assert input[next..][1..] == input[next + 1..];
      next := next + 1;
      if IsFinal(value) {
        return;
      }
    }
    assert input[next..] == "";
  }

  method ConsumeOsc(input: string, at: nat) returns (next: nat)
    requires at <= |input|
    ensures at <= next <= |input| && input[next..] == AfterOsc(input[at..])
  {
    next := at;
    while next < |input|
      invariant at <= next <= |input| && AfterOsc(input[next..]) == AfterOsc(input[at..])
    {
      var value := input[next];
      assert input[next..][1..] == input[next + 1..];
      assert next + 1 < |input| ==> input[next..][2..] == input[next + 2..] && input[next..][1] == input[next + 1];
      next := next + 1;
      if value == '\U{0007}' {
        return;
      }
      if value == ESC && next < |input| && input[next] == '\\' {
        next := next + 1;
        return;
      }
    }
    assert input[next..] == "";
  }

  method ConsumeAfterEscape(input: string, at: nat) returns (escaped: bool, next: nat)
    requires at <= |input|
    ensures at <= next <= |input| && (escaped, input[next..]) == AfterEscape(input[at..])
  {
    next := at;
    if at == |input| {
      return false, at;
    }
    assert input[at..][1..] == input[at + 1..];
    if input[at] == '[' {
      next := ConsumeCsi(input, at + 1);
      return true, next;
    }
    if input[at] == ']' {
      next := ConsumeOsc(input, at + 1);
      return true, next;
    }
    if !IsIntermediate(input[at]) {
      return false, at;
    }
    next := at + 1;
    while next < |input| && IsIntermediate(input[next])
      invariant at + 1 <= next <= |input| && AfterIntermediates(input[next..]) == AfterIntermediates(input[at + 1..])
    {
      assert input[next..][1..] == input[next + 1..];
      next := next + 1;
    }
    assert AfterIntermediates(input[next..]) == input[next..];
    assert next < |input| ==> input[next..][1..] == input[next + 1..];
    if next < |input| && '0' <= input[next] <= '~' {
      next := next + 1;
    }
    return true, next;
  }

  method NormalizePlainText(input: string) returns (result: string)
    ensures result == Normalized(input)
  {
    result := "";
    var at := 0;
    assert input[0..] == input;
    while at < |input|
      invariant at <= |input| && result + Normalized(input[at..]) == Normalized(input)
      decreases |input| - at
    {
      ghost var before, tail := result, input[at..];
      var c := input[at];
      var next := at + 1;
      assert tail[0] == c && tail[1..] == input[next..];
      hide Normalized, AfterCsi, AfterOsc, AfterEscape;
      NormalizedStep(tail);
      var piece := "";
      if c == '\r' {
        if next < |input| && input[next] == '\n' {
          assert input[next..][1..] == input[next + 1..];
          next := next + 1;
        }
        piece := "\n";
      } else if c == '\n' {
        piece := "\n";
      } else if c == '\t' {
        piece := TAB_SPACES;
      } else if c == ESC {
        var escaped;
        escaped, next := ConsumeAfterEscape(input, next);
        piece := if escaped then "" else [REPLACEMENT];
      } else if c == '\U{009B}' {
        next := ConsumeCsi(input, next);
      } else if c == '\U{009D}' {
        next := ConsumeOsc(input, next);
      } else {
        piece := if IsDisplayControl(c) then [REPLACEMENT] else [c];
      }
      assert Normalized(tail) == piece + Normalized(input[next..]);
      result := result + piece;
      Associate(before, piece, Normalized(input[next..]));
      at := next;
    }
    NormalizedNone();
    assert input[at..] == "";
  }

  lemma NormalizedNone()
    ensures Normalized("") == ""
  {
  }

  /** One character's worth of the result, and where the text goes on. */
  function Piece(s: string): (r: (string, string))
    requires s != ""
    ensures |r.1| < |s|
  {
    var c, rest := s[0], s[1..];
    if c == '\r' then ("\n", if rest != "" && rest[0] == '\n' then rest[1..] else rest)
    else if c == '\n' then ("\n", rest)
    else if c == '\t' then (TAB_SPACES, rest)
    else if c == ESC then (if AfterEscape(rest).0 then "" else [REPLACEMENT], AfterEscape(rest).1)
    else if c == '\U{009B}' then ("", AfterCsi(rest))
    else if c == '\U{009D}' then ("", AfterOsc(rest))
    else if IsDisplayControl(c) then ([REPLACEMENT], rest)
    else ([c], rest)
  }

  lemma NormalizedStep(s: string)
    requires s != ""
    ensures Normalized(s) == Piece(s).0 + Normalized(Piece(s).1)
  {
    hide AfterCsi, AfterOsc, AfterEscape, IsDisplayControl;
    assert "" + Normalized(Piece(s).1) == Normalized(Piece(s).1);
  }

  // ---------- what it promises ----------

  lemma PieceClean(s: string)
    requires s != ""
    ensures Clean(Piece(s).0)
  {
    hide AfterCsi, AfterOsc, AfterEscape;
  }

  lemma CleanAppend(a: string, b: string)
    ensures Clean(a + b) <==> Clean(a) && Clean(b)
  {
    hide IsDisplayControl;
    assert forall c :: c in a + b <==> c in a || c in b;
  }

  /** No control or invisible formatting character survives, except newlines. */
  lemma {:induction false} NormalizedIsClean(s: string)
    ensures Clean(Normalized(s))
    decreases |s|
  {
    if s != "" {
      hide Piece, Clean, Normalized;
      NormalizedStep(s);
      PieceClean(s);
      NormalizedIsClean(Piece(s).1);
      CleanAppend(Piece(s).0, Normalized(Piece(s).1));
    }
  }

  lemma {:induction false} CleanStays(s: string)
    requires Clean(s)
    ensures Normalized(s) == s
    decreases |s|
  {
    if s != "" {
      hide Normalized;
      assert s == [s[0]] + s[1..];
      CleanAppend([s[0]], s[1..]);
      CleanStays(s[1..]);
      CleanPiece(s);
      NormalizedStep(s);
    } else {
      NormalizedNone();
    }
  }

  lemma CleanPiece(s: string)
    requires s != "" && Clean(s)
    ensures Piece(s) == ([s[0]], s[1..])
  {
    assert s[0] in s;
  }

  /** Exactly the clean texts are left as they are; so normalizing twice changes nothing more. */
  lemma UnchangedIffClean(s: string)
    ensures Normalized(s) == s <==> Clean(s)
    ensures Normalized(Normalized(s)) == Normalized(s)
  {
    hide Normalized, Clean;
    NormalizedIsClean(s);
    if Clean(s) { CleanStays(s); }
    CleanStays(Normalized(s));
  }

  // ---------- one piece after another ----------

  /** The text starts no escape sequence that could reach into what follows. */
  predicate StartsNoSequence(a: string) {
    forall c :: c in a ==> c != '\U{001B}' && c != '\U{009B}' && c != '\U{009D}'
  }

  /** A carriage return and a line feed are not torn apart. */
  predicate Separable(a: string, b: string) {
    a != "" && b != "" && a[|a| - 1] == '\r' ==> b[0] != '\n'
  }

  lemma PieceSplits(a: string, b: string)
    requires a != "" && StartsNoSequence(a) && Separable(a, b)
    ensures Piece(a + b) == (Piece(a).0, Piece(a).1 + b)
    ensures StartsNoSequence(Piece(a).1) && Separable(Piece(a).1, b)
  {
    hide IsDisplayControl, AfterCsi, AfterOsc, AfterEscape;
    assert (a + b)[1..] == a[1..] + b && a[0] in a;
    var gone := if a[0] == '\r' && |a| > 1 && a[1] == '\n' then 2 else 1;
    if gone == 2 { assert (a[1..] + b)[1..] == a[2..] + b && a[1..][1..] == a[2..]; }
    assert Piece(a).1 == a[gone..];
    assert forall c :: c in a[gone..] ==> c in a;
  }

  /** Texts are normalized one after the other. */
  lemma {:induction false} NormalizedSplits(a: string, b: string)
    requires StartsNoSequence(a) && Separable(a, b)
    ensures Normalized(a + b) == Normalized(a) + Normalized(b)
    decreases |a|
  {
    hide Normalized, Piece, StartsNoSequence, Separable;
    if a == "" {
      NormalizedNone();
      assert a + b == b && "" + Normalized(b) == Normalized(b);
    } else {
      PieceSplits(a, b);
      NormalizedStep(a + b);
      NormalizedStep(a);
      NormalizedSplits(Piece(a).1, b);
      Associate(Piece(a).0, Normalized(Piece(a).1), Normalized(b));
    }
  }

  lemma NormalizedCharacter(c: char)
    requires c != '\U{001B}' && c != '\U{009B}' && c != '\U{009D}'
    ensures Normalized([c])
         == if c == '\t' then "    " else if c == '\r' then "\n" else if c == '\n' then "\n"
            else if IsDisplayControl(c) then "\U{FFFD}" else [c]
    ensures Normalized("\r\n") == "\n"
  {
    hide IsDisplayControl, Normalized;
    NormalizedNone();
    NormalizedStep([c]);
    NormalizedStep("\r\n");
    assert "\r\n"[1..][1..] == "";
  }

  /** Wherever they stand, a tab is four spaces, a carriage return or line feed or both are one
      newline, any other control or invisible formatting character is a replacement character,
      and the rest stays as it is. */
  lemma CharacterNormalized(a: string, c: char, b: string)
    requires StartsNoSequence(a) && StartsNoSequence([c]) && Separable(a, [c]) && Separable([c], b)
    ensures Normalized(a + [c] + b)
         == Normalized(a)
            + (if c == '\t' then "    " else if c == '\r' then "\n" else if c == '\n' then "\n"
               else if IsDisplayControl(c) then "\U{FFFD}" else [c])
            + Normalized(b)
    ensures Normalized(a + "\r\n" + b) == Normalized(a) + "\n" + Normalized(b)
  {
    assert c in [c];
    assert StartsNoSequence("\r\n") && Separable("\r\n", b) && Separable(a, "\r\n" + b) && Separable(a, [c] + b);
    hide Normalized, StartsNoSequence, Separable, IsDisplayControl;
    NormalizedCharacter(c);
    NormalizedSplits([c], b);
    NormalizedSplits(a, [c] + b);
    Associate(a, [c], b);
    NormalizedSplits("\r\n", b);
    NormalizedSplits(a, "\r\n" + b);
    Associate(a, "\r\n", b);
    Associate(Normalized(a), Normalized([c]), Normalized(b));
    Associate(Normalized(a), "\n", Normalized(b));
  }

  // ---------- escape sequences leave no trace ----------

  predicate IsParameter(c: char) {
    '0' <= c <= '?'
  }

  lemma {:induction false} CsiSkipped(body: string, final: char, rest: string)
    requires IsFinal(final) && forall c :: c in body ==> !IsFinal(c)
    ensures AfterCsi(body + [final] + rest) == rest
    decreases |body|
  {
    var s := body + [final] + rest;
    if body == "" {
      assert s[1..] == rest;
    } else {
      assert s[0] == body[0] && body[0] in body;
      assert s[1..] == body[1..] + [final] + rest;
      CsiSkipped(body[1..], final, rest);
    }
  }

  /** A control sequence (section 5.4 of ECMA-48: CSI, parameter bytes, intermediate bytes,
      a final byte) is removed whole, whether CSI is one character or two. */
  lemma ControlSequenceRemoved(parameters: string, intermediates: string, final: char, rest: string)
    requires forall c :: c in parameters ==> IsParameter(c)
    requires forall c :: c in intermediates ==> IsIntermediate(c)
    requires IsFinal(final)
    ensures Normalized(['\U{009B}'] + parameters + intermediates + [final] + rest) == Normalized(rest)
    ensures Normalized([ESC, '['] + parameters + intermediates + [final] + rest) == Normalized(rest)
  {
    hide Normalized;
    var body := parameters + intermediates;
    var tail := body + [final] + rest;
    assert forall c :: c in body ==> c in parameters || c in intermediates;
    CsiSkipped(body, final, rest);
    AfterIntroducer(parameters, intermediates, final, rest);
    OneIntroducer('\U{009B}', tail);
    TwoIntroducers('[', tail);
  }

  lemma AfterIntroducer(parameters: string, intermediates: string, final: char, rest: string)
    ensures ['\U{009B}'] + parameters + intermediates + [final] + rest
         == ['\U{009B}'] + ((parameters + intermediates) + [final] + rest)
    ensures [ESC, '['] + parameters + intermediates + [final] + rest
         == [ESC, '['] + ((parameters + intermediates) + [final] + rest)
  {
  }

  /** What a one-character introducer does with the text after it. */
  lemma OneIntroducer(c: char, tail: string)
    requires c == '\U{009B}' || c == '\U{009D}'
    ensures Normalized([c] + tail) == if c == '\U{009B}' then Normalized(AfterCsi(tail)) else Normalized(AfterOsc(tail))
  {
    hide Normalized, AfterCsi, AfterOsc;
    var s := [c] + tail;
    assert s[1..] == tail;
    NormalizedStep(s);
    assert "" + Normalized(Piece(s).1) == Normalized(Piece(s).1);
  }

  /** And its two-character form. */
  lemma TwoIntroducers(c: char, tail: string)
    requires c == '[' || c == ']'
    ensures Normalized([ESC, c] + tail) == if c == '[' then Normalized(AfterCsi(tail)) else Normalized(AfterOsc(tail))
  {
    hide Normalized, AfterCsi, AfterOsc;
    var s := [ESC, c] + tail;
    assert s[1..] == [c] + tail && s[1..][1..] == tail;
    NormalizedStep(s);
    assert "" + Normalized(Piece(s).1) == Normalized(Piece(s).1);
  }

  lemma {:induction false} OscSkipped(body: string, end: string, rest: string)
    requires end == "\U{0007}" || end == [ESC, '\\']
    requires forall c :: c in body ==> c != '\U{0007}' && c != ESC
    ensures AfterOsc(body + end + rest) == rest
    decreases |body|
  {
    var s := body + end + rest;
    if body == "" {
      assert s == end + rest;
      assert s[0] == end[0] && s[|end|..] == rest;
      if end != "\U{0007}" { assert s[1] == '\\'; }
    } else {
      assert s[0] == body[0] && body[0] in body;
      assert s[1..] == body[1..] + end + rest;
      assert forall c :: c in body[1..] ==> c in body;
      OscSkipped(body[1..], end, rest);
    }
  }

  /** An operating system command, ended by BEL or ST, is removed whole. */
  lemma OperatingSystemCommandRemoved(body: string, end: string, rest: string)
    requires end == "\U{0007}" || end == [ESC, '\\']
    requires forall c :: c in body ==> c != '\U{0007}' && c != ESC
    ensures Normalized(['\U{009D}'] + body + end + rest) == Normalized(rest)
    ensures Normalized([ESC, ']'] + body + end + rest) == Normalized(rest)
  {
    hide Normalized;
    var tail := body + end + rest;
    OscSkipped(body, end, rest);
    assert ['\U{009D}'] + body + end + rest == ['\U{009D}'] + tail;
    assert [ESC, ']'] + body + end + rest == [ESC, ']'] + tail;
    OneIntroducer('\U{009D}', tail);
    TwoIntroducers(']', tail);
  }
}
