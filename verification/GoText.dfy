/** The few string functions of Go's standard library that the command line and the prompt registry use. */
module GoText {
  // unicode.IsSpace
  predicate Space(c: char) {
    var n := c as int;
    9 <= n <= 13 || n == 32 || n == 0x85 || n == 0xa0 || n == 0x1680 || 0x2000 <= n <= 0x200a
    || n == 0x2028 || n == 0x2029 || n == 0x202f || n == 0x205f || n == 0x3000
  }

  function TrimLeft(s: string): string {
    if s != "" && Space(s[0]) then TrimLeft(s[1..]) else s
  }

  function TrimRight(s: string): string {
    if s != "" && Space(s[|s| - 1]) then TrimRight(s[..|s| - 1]) else s
  }

  // strings.TrimSpace
  function TrimSpace(s: string): string {
    TrimRight(TrimLeft(s))
  }

  // The characters unicode.IsSpace accepts.
  const BLANKS := {
    9, 10, 11, 12, 13, 32, 0x85, 0xa0, 0x1680, 0x2000, 0x2001, 0x2002, 0x2003, 0x2004, 0x2005, 0x2006, 0x2007, 0x2008,
    0x2009, 0x200a, 0x2028, 0x2029, 0x202f, 0x205f, 0x3000
  }

  lemma BlanksAre(c: char)
    ensures Space(c) <==> c as int in BLANKS
  {
  }

  predicate Blank(s: string) {
    forall c <- s :: Space(c)
  }

  lemma {:induction false} TrimLeftOf(blank: string, rest: string)
    requires Blank(blank) && (rest == "" || !Space(rest[0]))
    ensures TrimLeft(blank + rest) == rest
  {
    if blank == "" {
      assert blank + rest == rest;
    } else {
      assert (blank + rest)[0] == blank[0] && (blank + rest)[1..] == blank[1..] + rest;
      TrimLeftOf(blank[1..], rest);
    }
  }

  lemma {:induction false} TrimRightOf(text: string, blank: string)
    requires Blank(blank) && (text == "" || !Space(text[|text| - 1]))
    ensures TrimRight(text + blank) == text
    decreases |blank|
  {
    if blank == "" {
      assert text + blank == text;
    } else {
      var all, last := text + blank, blank[|blank| - 1];
      assert all[|all| - 1] == last && all[..|all| - 1] == text + blank[..|blank| - 1];
      TrimRightOf(text, blank[..|blank| - 1]);
    }
  }

  /** Trimming removes the blanks around a text and nothing else. */
  lemma TrimSays(before: string, text: string, after: string)
    requires Blank(before) && Blank(after)
    requires text == "" || (!Space(text[0]) && !Space(text[|text| - 1]))
    ensures TrimSpace(before + text + after) == text
  {
    assert before + text + after == before + (text + after);
    if text == "" {
      assert before + (text + after) == (before + after) + "";
      assert forall c <- before + after :: c in before || c in after;
      TrimLeftOf(before + after, "");
    } else {
      assert (text + after)[0] == text[0];
      TrimLeftOf(before, text + after);
      TrimRightOf(text, after);
    }
  }

  // The position of the first equals sign, or the length of the text.
  function CutPoint(s: string): (n: nat)
    ensures n <= |s| && '=' !in s[..n] && (n < |s| ==> s[n] == '=')
  {
    if s == "" || s[0] == '=' then 0
    else
      var n := 1 + CutPoint(s[1..]);
      assert s[..n] == [s[0]] + s[1..][..n - 1];
      n
  }

  lemma {:induction false} CutAt(name: string, value: string)
    requires '=' !in name
    ensures CutPoint(name + "=" + value) == |name| && CutPoint(name) == |name|
  {
    var s := name + "=" + value;
    if name != "" {
      assert s[0] == name[0] && name[0] in name;
      assert s[1..] == name[1..] + "=" + value;
      CutAt(name[1..], value);
    }
  }
}
