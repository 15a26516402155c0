/** `xmlesc` and `format_desc` (ta-helper.py:68-82), with the entity decoder
    that inverts `xmlesc`. */
module Xml {
  import opened Text

  /** `xmlesc(s)`: empty for empty input, otherwise five `str.replace` calls
      with `&` first. Because `&` goes first, the chain amounts to escaping
      each character on its own. */
  function XmlEscRaw(s: string): (r: string)
    ensures r == EscapeEach(s)
  {
    ChainIsEscapeEach(s);
    if s == [] then []
    else
      var s1 := ReplaceAll(s, "&", "&amp;");
      var s2 := ReplaceAll(s1, "<", "&lt;");
      var s3 := ReplaceAll(s2, ">", "&gt;");
      var s4 := ReplaceAll(s3, "\"", "&quot;");
      ReplaceAll(s4, "'", "&apos;")
  }

  /** The entity one character becomes. */
  function EscapeChar(c: char): string {
    if c == '&' then "&amp;"
    else if c == '<' then "&lt;"
    else if c == '>' then "&gt;"
    else if c == '"' then "&quot;"
    else if c == '\'' then "&apos;"
    else [c]
  }

  /** Reference definition: every character escaped on its own. */
  function EscapeEach(s: string): string {
    if s == [] then [] else EscapeChar(s[0]) + EscapeEach(s[1..])
  }

  /** The five replacements applied to a string. */
  function Chain(s: string): string {
    ReplaceAll(ReplaceAll(ReplaceAll(ReplaceAll(ReplaceAll(s, "&", "&amp;"), "<", "&lt;"), ">", "&gt;"), "\"", "&quot;"), "'", "&apos;")
  }

  lemma ChainConcat(a: string, b: string)
    ensures Chain(a + b) == Chain(a) + Chain(b)
  {
    var a1, b1 := ReplaceAll(a, "&", "&amp;"), ReplaceAll(b, "&", "&amp;");
    ReplaceCharConcat(a, b, '&', "&amp;");
    var a2, b2 := ReplaceAll(a1, "<", "&lt;"), ReplaceAll(b1, "<", "&lt;");
    ReplaceCharConcat(a1, b1, '<', "&lt;");
    var a3, b3 := ReplaceAll(a2, ">", "&gt;"), ReplaceAll(b2, ">", "&gt;");
    ReplaceCharConcat(a2, b2, '>', "&gt;");
    var a4, b4 := ReplaceAll(a3, "\"", "&quot;"), ReplaceAll(b3, "\"", "&quot;");
    ReplaceCharConcat(a3, b3, '"', "&quot;");
    ReplaceCharConcat(a4, b4, '\'', "&apos;");
  }

  /** Replacing a character in a one-character string. */
  lemma Single(c: char, x: char, rep: string)
    ensures ReplaceAll([c], [x], rep) == if c == x then rep else [c]
  {
    ReplaceCharHead([c], x, rep);
  }

  lemma ChainChar(c: char)
    ensures Chain([c]) == EscapeChar(c)
  {
    Single(c, '&', "&amp;");
    if c == '&' {
      ChainEntity("&amp;");
    } else {
      Single(c, '<', "&lt;");
      if c == '<' {
        ReplaceCharAbsent("&lt;", '>', "&gt;");
        ReplaceCharAbsent("&lt;", '"', "&quot;");
        ReplaceCharAbsent("&lt;", '\'', "&apos;");
      } else {
        Single(c, '>', "&gt;");
        if c == '>' {
          ReplaceCharAbsent("&gt;", '"', "&quot;");
          ReplaceCharAbsent("&gt;", '\'', "&apos;");
        } else {
          Single(c, '"', "&quot;");
          Single(c, '\'', "&apos;");
          if c == '"' {
            ReplaceCharAbsent("&quot;", '\'', "&apos;");
          }
        }
      }
    }
  }

  /** The later replacements leave "&amp;" alone. */
  lemma ChainEntity(e: string)
    requires e == "&amp;"
    ensures ReplaceAll(ReplaceAll(ReplaceAll(ReplaceAll(e, "<", "&lt;"), ">", "&gt;"), "\"", "&quot;"), "'", "&apos;") == e
  {
    ReplaceCharAbsent(e, '<', "&lt;");
    ReplaceCharAbsent(e, '>', "&gt;");
    ReplaceCharAbsent(e, '"', "&quot;");
    ReplaceCharAbsent(e, '\'', "&apos;");
  }

  /** Because `&` is replaced first, the five sequential replacements amount
      to escaping each character on its own. */
  lemma {:induction false} ChainIsEscapeEach(s: string)
    ensures Chain(s) == EscapeEach(s)
  {
    if s != [] {
      assert s == [s[0]] + s[1..];
      ChainConcat([s[0]], s[1..]);
      ChainChar(s[0]);
      ChainIsEscapeEach(s[1..]);
    }
  }

  /** Length of the entity `s` starts with, 0 when it starts with none of
      the five `xmlesc` produces. */
  function EntityLen(s: string): nat {
    if |s| >= 5 && s[0] == '&' && s[1] == 'a' && s[2] == 'm' && s[3] == 'p' && s[4] == ';' then 5
    else if |s| >= 4 && s[0] == '&' && s[1] == 'l' && s[2] == 't' && s[3] == ';' then 4
    else if |s| >= 4 && s[0] == '&' && s[1] == 'g' && s[2] == 't' && s[3] == ';' then 4
    else if |s| >= 6 && s[0] == '&' && s[1] == 'q' && s[2] == 'u' && s[3] == 'o' && s[4] == 't' && s[5] == ';' then 6
    else if |s| >= 6 && s[0] == '&' && s[1] == 'a' && s[2] == 'p' && s[3] == 'o' && s[4] == 's' && s[5] == ';' then 6
    else 0
  }

  /** The character an entity stands for. */
  function EntityChar(s: string): char
    requires EntityLen(s) > 0
  {
    if s[1] == 'l' then '<' else if s[1] == 'g' then '>' else if s[1] == 'q' then '"'
    else if s[2] == 'm' then '&' else '\''
  }

  predicate EntityAt(s: string, i: int) {
    0 <= i <= |s| && EntityLen(s[i..]) > 0
  }

  /** A string with no raw markup character, in which every `&` starts an entity. */
  predicate Escaped(s: string) {
    (forall i :: 0 <= i < |s| ==> s[i] != '<' && s[i] != '>' && s[i] != '"' && s[i] != '\'') &&
    (forall i :: 0 <= i < |s| && s[i] == '&' ==> EntityAt(s, i))
  }

  lemma EscapedConcat(a: string, b: string)
    requires Escaped(a) && Escaped(b)
    ensures Escaped(a + b)
  {
    forall i | 0 <= i < |a + b| && (a + b)[i] == '&'
      ensures EntityAt(a + b, i)
    {
      if i < |a| {
        assert EntityAt(a, i);
        var t := a[i..];
        assert (a + b)[i..] == t + b;
        assert forall k :: 0 <= k < |t| ==> (t + b)[k] == t[k];
      } else {
        assert EntityAt(b, i - |a|);
        assert (a + b)[i..] == b[i - |a|..];
      }
    }
  }

  lemma {:induction false} EscapeEachEscaped(s: string)
    ensures Escaped(EscapeEach(s))
  {
    if s != [] {
      EscapeEachEscaped(s[1..]);
      var e := EscapeChar(s[0]);
      assert Escaped(e) by {
        if s[0] == '&' || s[0] == '<' || s[0] == '>' || s[0] == '"' || s[0] == '\'' {
          assert EntityAt(e, 0);
        }
      }
      EscapedConcat(e, EscapeEach(s[1..]));
    }
  }

  /** Decodes the five entities; any other `&` is kept as it is. */
  function XmlUnesc(s: string): string {
    if s == [] then []
    else if EntityLen(s) > 0 then [EntityChar(s)] + XmlUnesc(s[EntityLen(s)..])
    else [s[0]] + XmlUnesc(s[1..])
  }

  /** Decoding one escaped character. */
  lemma UnescHead(c: char, rest: string)
    ensures XmlUnesc(EscapeChar(c) + rest) == [c] + XmlUnesc(rest)
  {
    if c == '&' {
      UnescEntity("&amp;", '&', rest);
    } else if c == '<' {
      UnescEntity("&lt;", '<', rest);
    } else if c == '>' {
      UnescEntity("&gt;", '>', rest);
    } else if c == '"' {
      UnescEntity("&quot;", '"', rest);
    } else if c == '\'' {
      UnescEntity("&apos;", '\'', rest);
    } else {
      var t := [c] + rest;
      assert t[0] == c && t[1..] == rest;
    }
  }

  lemma UnescEntity(e: string, c: char, rest: string)
    requires e == "&amp;" || e == "&lt;" || e == "&gt;" || e == "&quot;" || e == "&apos;"
    requires c == EntityChar(e)
    ensures XmlUnesc(e + rest) == [c] + XmlUnesc(rest)
  {
    var t := e + rest;
    assert t[..|e|] == e;
    EntityPrefix(e, rest);
    assert t[|e|..] == rest;
  }

  lemma EntityPrefix(e: string, rest: string)
    requires e == "&amp;" || e == "&lt;" || e == "&gt;" || e == "&quot;" || e == "&apos;"
    ensures EntityLen(e + rest) == |e| && EntityChar(e + rest) == EntityChar(e)
  {
    var t := e + rest;
    assert forall k :: 0 <= k < |e| ==> t[k] == e[k];
  }

  lemma {:induction false} UnescEscapeEach(s: string)
    ensures XmlUnesc(EscapeEach(s)) == s
  {
    if s != [] {
      UnescEscapeEach(s[1..]);
      UnescHead(s[0], EscapeEach(s[1..]));
      assert s == [s[0]] + s[1..];
    }
  }

  /** `xmlesc(s)`: "" for empty input; no raw `<`, `>`, `"` or `'`; every `&`
      starts one of the five entities; decoding gives the input back. */
  function XmlEsc(s: string): (r: string)
    ensures s == "" ==> r == ""
    ensures Escaped(r)
    ensures XmlUnesc(r) == s
  {
    EscapeEachEscaped(s);
    UnescEscapeEach(s);
    XmlEscRaw(s)
  }

  /** `format_desc(s)`: each newline gets "<br>" in front of it. The result
      is the input with each newline replaced on its own; it is four
      characters longer per newline, and removing the break before each
      newline gives the input back. */
  function FormatDesc(s: string): (r: string)
    ensures r == BreakEach(s)
    ensures |r| == |s| + 4 * Newlines(s)
    ensures StripBreaks(r) == s
  {
    ReplaceBreaks(s);
    BreakEachInverse(s);
    if s == [] then [] else ReplaceAll(s, "\n", "<br>\n")
  }

  /** What one character of the input becomes in `format_desc`. */
  function BreakChar(c: char): string {
    if c == '\n' then "<br>\n" else [c]
  }

  /** Reference definition: every character of the input on its own. */
  function BreakEach(s: string): string {
    if s == [] then [] else BreakChar(s[0]) + BreakEach(s[1..])
  }

  lemma {:induction false} ReplaceBreaks(s: string)
    ensures ReplaceAll(s, "\n", "<br>\n") == BreakEach(s)
  {
    if s != [] {
      ReplaceCharHead(s, '\n', "<br>\n");
      ReplaceBreaks(s[1..]);
    }
  }

  /** Number of newlines in `s`. */
  function Newlines(s: string): nat {
    if s == [] then 0 else (if s[0] == '\n' then 1 else 0) + Newlines(s[1..])
  }

  /** Removes the "<br>" that precedes each newline. */
  function StripBreaks(s: string): string
    decreases |s|
  {
    if s == [] then []
    else if StartsWith(s, "<br>\n") then "\n" + StripBreaks(s[5..])
    else [s[0]] + StripBreaks(s[1..])
  }

  /** The first character of a broken text: a newline's break starts
      with '<'. */
  lemma BreakHead(t: string)
    ensures BreakEach(t) == [] <==> t == []
    ensures t != [] ==> BreakEach(t)[0] == (if t[0] == '\n' then '<' else t[0])
    ensures t != [] ==> BreakEach(t)[1..] == BreakEach(t[1..]) || t[0] == '\n'
  {
  }

  /** An input character other than a newline never starts a "<br>\n" in the
      output, even when the input itself continues with "br>". */
  lemma NoSpuriousBreak(c: char, t: string)
    requires c != '\n'
    ensures !StartsWith([c] + BreakEach(t), "<br>\n")
  {
    var f := BreakEach(t);
    if StartsWith([c] + f, "<br>\n") {
      assert f[..4] == "br>\n" by {
        assert ([c] + f)[1..5] == f[..4];
      }
      BreakHead(t);
      var t1 := t[1..];
      BreakHead(t1);
      var t2 := t1[1..];
      BreakHead(t2);
      var t3 := t2[1..];
      BreakHead(t3);
      assert false;
    }
  }

  /** Breaking adds four characters per newline and nothing else. */
  lemma {:induction false} BreakEachInverse(s: string)
    ensures |BreakEach(s)| == |s| + 4 * Newlines(s)
    ensures StripBreaks(BreakEach(s)) == s
  {
    if s != [] {
      BreakEachInverse(s[1..]);
      var r := BreakEach(s[1..]);
      if s[0] == '\n' {
        assert ("<br>\n" + r)[5..] == r;
      } else {
        NoSpuriousBreak(s[0], s[1..]);
        assert ([s[0]] + r)[1..] == r;
      }
      assert s == [s[0]] + s[1..];
    }
  }

  lemma {:induction false} EscapeEachConcat(a: string, b: string)
    ensures EscapeEach(a + b) == EscapeEach(a) + EscapeEach(b)
  {
    if a != [] {
      assert (a + b)[1..] == a[1..] + b;
      EscapeEachConcat(a[1..], b);
    } else {
      assert a + b == b;
    }
  }

  /** Text without markup characters escapes to itself. */
  lemma {:induction false} EscapeEachPlain(s: string)
    requires forall i :: 0 <= i < |s| ==> s[i] != '&' && s[i] != '<' && s[i] != '>' && s[i] != '"' && s[i] != '\''
    ensures EscapeEach(s) == s
  {
    if s != [] {
      EscapeEachPlain(s[1..]);
    }
  }

  lemma EscapeBreak()
    ensures EscapeEach("<br>\n") == "&lt;br&gt;\n"
  {
    EscapeBrTail();
    EscapeEachConcat("<", "br>\n");
  }

  lemma EscapeBrTail()
    ensures EscapeEach("br>\n") == "br&gt;\n"
  {
    EscapeGtNewline();
    EscapeEachConcat("br", ">\n");
    EscapeEachPlain("br");
  }

  lemma EscapeGtNewline()
    ensures EscapeEach(">\n") == "&gt;\n"
  {
    EscapeEachConcat(">", "\n");
    EscapeEachPlain("\n");
  }

  /** A newline between two newline-free texts gains its "<br>". */
  lemma FormatOneBreak(a: string, b: string)
    requires '\n' !in a && '\n' !in b
    ensures FormatDesc(a + "\n" + b) == a + "<br>\n" + b
  {
    var nb := "\n" + b;
    assert a + "\n" + b == a + nb;
    ReplaceCharConcat(a, nb, '\n', "<br>\n");
    ReplaceCharHead(nb, '\n', "<br>\n");
    assert nb[0] == '\n' && nb[1..] == b;
    ReplaceCharAbsent(a, '\n', "<br>\n");
    ReplaceCharAbsent(b, '\n', "<br>\n");
  }

  /** Plain text around a "<br>" keeps its characters; the break's markup
      is escaped. */
  lemma EscapeOneBreak(a: string, b: string)
    requires forall i :: 0 <= i < |a| ==> a[i] != '&' && a[i] != '<' && a[i] != '>' && a[i] != '"' && a[i] != '\''
    requires forall i :: 0 <= i < |b| ==> b[i] != '&' && b[i] != '<' && b[i] != '>' && b[i] != '"' && b[i] != '\''
    ensures XmlEsc(a + "<br>\n" + b) == a + "&lt;br&gt;\n" + b
  {
    EscapeEachConcat(a + "<br>\n", b);
    EscapeEachConcat(a, "<br>\n");
    EscapeEachPlain(a);
    EscapeEachPlain(b);
    EscapeBreak();
  }

  /** A two-line description such as "Hello\nWorld" reaches an NFO as
      "Hello&lt;br&gt;\nWorld": the inserted break is escaped with the text. */
  lemma EscapedDescription(a: string, b: string)
    requires forall i :: 0 <= i < |a| ==> a[i] != '&' && a[i] != '<' && a[i] != '>' && a[i] != '"' && a[i] != '\'' && a[i] != '\n'
    requires forall i :: 0 <= i < |b| ==> b[i] != '&' && b[i] != '<' && b[i] != '>' && b[i] != '"' && b[i] != '\'' && b[i] != '\n'
    ensures XmlEsc(FormatDesc(a + "\n" + b)) == a + "&lt;br&gt;\n" + b
  {
    FormatOneBreak(a, b);
    EscapeOneBreak(a, b);
  }
}
