/** When two human goals count as the same: the project manager's normalisation and
    the key it files a goal under. */
module Goals {
  import opened Common

  /** The character facts the normalisation rests on. */
  datatype Script = Script(space: char -> bool, lower: char -> char)

  /** Lower case is stable, keeps blanks blank, and leaves the separator alone. */
  ghost predicate Sane(x: Script) {
    && x.space(' ') && x.lower(' ') == ' ' && KeepsBlanks(x)
    && forall c {:trigger x.lower(c)} :: x.lower(x.lower(c)) == x.lower(c)
  }

  ghost predicate KeepsBlanks(x: Script) {
    forall c {:trigger x.lower(c)} :: x.space(x.lower(c)) == x.space(c)
  }

  function Lower(x: Script, s: string): (r: string)
    ensures |r| == |s| && forall i :: 0 <= i < |s| ==> r[i] == x.lower(s[i])
  {
    seq(|s|, i requires 0 <= i < |s| => x.lower(s[i]))
  }

  function TrimLeft(x: Script, s: string): string {
    if s != "" && x.space(s[0]) then TrimLeft(x, s[1..]) else s
  }

  function TrimRight(x: Script, s: string): string {
    if s != "" && x.space(s[|s| - 1]) then TrimRight(x, s[..|s| - 1]) else s
  }

  function Trim(x: Script, s: string): string {
    TrimRight(x, TrimLeft(x, s))
  }

  /** The length of the word `s` begins with. */
  function WordLen(x: Script, s: string): (n: nat)
    ensures n <= |s| && (forall i :: 0 <= i < n ==> !x.space(s[i])) && (n < |s| ==> x.space(s[n]))
  {
    if s == "" || x.space(s[0]) then 0 else 1 + WordLen(x, s[1..])
  }

  function Fields(x: Script, s: string): seq<string>
    decreases |s|
  {
    if s == "" then []
    else if x.space(s[0]) then Fields(x, s[1..])
    else [s[..WordLen(x, s)]] + Fields(x, s[WordLen(x, s)..])
  }

  function Join(ws: seq<string>): string {
    if ws == [] then "" else if |ws| == 1 then ws[0] else ws[0] + " " + Join(ws[1..])
  }

  function Normalize(x: Script, s: string): string {
    Join(Fields(x, Lower(x, Trim(x, s))))
  }

  /** The case-folded words of a goal. */
  function Words(x: Script, s: string): seq<string> {
    Fields(x, Lower(x, s))
  }

  function Key(x: Script, channel: string, goal: string): Option<string> {
    var g := Normalize(x, goal);
    if channel == "" || g == "" then None else Some(channel + "\0" + g)
  }

  ghost predicate IsWord(x: Script, w: string) {
    w != "" && forall i :: 0 <= i < |w| ==> !x.space(w[i])
  }

  ghost predicate AreWords(x: Script, ws: seq<string>) {
    forall i :: 0 <= i < |ws| ==> IsWord(x, ws[i])
  }

  lemma {:induction false} FieldsAreWords(x: Script, s: string)
    ensures AreWords(x, Fields(x, s))
    decreases |s|
  {
    if s == "" {
    } else if x.space(s[0]) {
      FieldsAreWords(x, s[1..]);
    } else {
      FieldsAreWords(x, s[WordLen(x, s)..]);
    }
  }

  lemma WordThenSpace(x: Script, w: string, rest: string)
    requires IsWord(x, w) && (rest == "" || x.space(rest[0]))
    ensures Fields(x, w + rest) == [w] + Fields(x, rest)
  {
    var s := w + rest;
    var n := WordLen(x, s);
    assert forall i :: 0 <= i < |w| ==> s[i] == w[i];
    assert rest != "" ==> s[|w|] == rest[0];
    assert n == |w|;
    assert s[..n] == w && s[n..] == rest;
  }

  /** Splitting undoes joining. */
  lemma {:induction false} FieldsOfJoin(x: Script, ws: seq<string>)
    requires x.space(' ') && AreWords(x, ws)
    ensures Fields(x, Join(ws)) == ws
  {
    if |ws| == 1 {
      WordThenSpace(x, ws[0], "");
      assert ws[0] + "" == ws[0];
    } else if |ws| > 1 {
      var rest := " " + Join(ws[1..]);
      WordThenSpace(x, ws[0], rest);
      assert rest[1..] == Join(ws[1..]);
      assert ws[0] + " " + Join(ws[1..]) == ws[0] + rest;
      FieldsOfJoin(x, ws[1..]);
    }
  }

  lemma {:induction false} JoinIsTight(x: Script, ws: seq<string>)
    requires AreWords(x, ws) && ws != []
    ensures Join(ws) != "" && !x.space(Join(ws)[0]) && !x.space(Join(ws)[|Join(ws)| - 1])
  {
    assert IsWord(x, ws[0]);
    if |ws| > 1 { JoinIsTight(x, ws[1..]); }
  }

  ghost predicate IsLower(x: Script, s: string) {
    forall i :: 0 <= i < |s| ==> x.lower(s[i]) == s[i]
  }

  lemma {:induction false} FieldsStayLower(x: Script, s: string)
    requires IsLower(x, s)
    ensures forall i :: 0 <= i < |Fields(x, s)| ==> IsLower(x, Fields(x, s)[i])
    decreases |s|
  {
    if s == "" {
    } else if x.space(s[0]) {
      FieldsStayLower(x, s[1..]);
    } else {
      FieldsStayLower(x, s[WordLen(x, s)..]);
    }
  }

  lemma {:induction false} JoinStaysLower(x: Script, ws: seq<string>)
    requires x.lower(' ') == ' ' && forall i :: 0 <= i < |ws| ==> IsLower(x, ws[i])
    ensures IsLower(x, Join(ws))
  {
    if |ws| > 1 {
      JoinStaysLower(x, ws[1..]);
      assert IsLower(x, ws[0]);
    }
  }

  /** A second normalisation changes nothing. */
  lemma NormalizeIsIdempotent(x: Script, s: string)
    requires Sane(x)
    ensures Normalize(x, Normalize(x, s)) == Normalize(x, s)
  {
    var low := Lower(x, Trim(x, s));
    var ws := Fields(x, low);
    FieldsAreWords(x, low);
    FieldsStayLower(x, low);
    JoinStaysLower(x, ws);
    FieldsOfJoin(x, ws);
    if ws != [] { JoinIsTight(x, ws); }
    assert Trim(x, Join(ws)) == Join(ws);
    assert Lower(x, Join(ws)) == Join(ws);
  }

  lemma {:induction false} FieldsIgnoreLeft(x: Script, s: string)
    ensures Fields(x, TrimLeft(x, s)) == Fields(x, s)
  {
    if s != "" && x.space(s[0]) { FieldsIgnoreLeft(x, s[1..]); }
  }

  lemma {:induction false} FieldsIgnoreLast(x: Script, s: string)
    requires s != "" && x.space(s[|s| - 1])
    ensures Fields(x, s[..|s| - 1]) == Fields(x, s)
    decreases |s|
  {
    var front := s[..|s| - 1];
    if |s| == 1 {
    } else if x.space(s[0]) {
      FieldsIgnoreLast(x, s[1..]);
      assert s[1..][..|s| - 2] == front[1..];
    } else {
      var w, rest := s[..WordLen(x, s)], s[WordLen(x, s)..];
      var rest' := rest[..|rest| - 1];
      assert s == w + rest && front == w + rest';
      WordThenSpace(x, w, rest);
      WordThenSpace(x, w, rest');
      FieldsIgnoreLast(x, rest);
    }
  }

  lemma {:induction false} FieldsIgnoreRight(x: Script, s: string)
    ensures Fields(x, TrimRight(x, s)) == Fields(x, s)
  {
    if s != "" && x.space(s[|s| - 1]) {
      FieldsIgnoreLast(x, s);
      FieldsIgnoreRight(x, s[..|s| - 1]);
    }
  }

  lemma {:induction false} LowerTrimLeft(x: Script, s: string)
    requires KeepsBlanks(x)
    ensures Lower(x, TrimLeft(x, s)) == TrimLeft(x, Lower(x, s))
  {
    if s != "" && x.space(s[0]) {
      LowerTrimLeft(x, s[1..]);
      assert Lower(x, s)[1..] == Lower(x, s[1..]);
    }
  }

  lemma {:induction false} LowerTrimRight(x: Script, s: string)
    requires KeepsBlanks(x)
    ensures Lower(x, TrimRight(x, s)) == TrimRight(x, Lower(x, s))
  {
    var n, low := |s| - 1, Lower(x, s);
    if s != "" {
      assert low[n] == x.lower(s[n]);
      if x.space(s[n]) {
        LowerTrimRight(x, s[..n]);
        assert low[..n] == Lower(x, s[..n]);
      }
    }
  }

  /** The normal form is the case-folded words, joined by single blanks. */
  lemma NormalFormIsWords(x: Script, s: string)
    requires Sane(x)
    ensures Normalize(x, s) == Join(Words(x, s)) && Fields(x, Normalize(x, s)) == Words(x, s)
  {
    LowerTrimRight(x, TrimLeft(x, s));
    LowerTrimLeft(x, s);
    FieldsIgnoreRight(x, TrimLeft(x, Lower(x, s)));
    FieldsIgnoreLeft(x, Lower(x, s));
    FieldsAreWords(x, Lower(x, s));
    FieldsOfJoin(x, Words(x, s));
  }

  /** Two goals are filed together exactly when they are the same words but for case
      and spacing, in the same channel. Channel ids contain no NUL. */
  lemma KeysIdentifyGoals(x: Script, c1: string, g1: string, c2: string, g2: string)
    requires Sane(x) && '\0' !in c1 && '\0' !in c2
    requires Key(x, c1, g1).Some? && Key(x, c2, g2).Some?
    ensures Key(x, c1, g1) == Key(x, c2, g2) <==> c1 == c2 && Words(x, g1) == Words(x, g2)
  {
    NormalFormIsWords(x, g1);
    NormalFormIsWords(x, g2);
    if Key(x, c1, g1) == Key(x, c2, g2) {
      SplitAtNul(c1, Normalize(x, g1), c2, Normalize(x, g2));
    }
  }

  lemma SplitAtNul(a: string, s: string, b: string, t: string)
    requires '\0' !in a && '\0' !in b && a + "\0" + s == b + "\0" + t
    ensures a == b && s == t
  {
    var k := a + "\0" + s;
    assert k == b + "\0" + t;
    assert k[|a|] == '\0' && k[|b|] == '\0';
    assert forall i :: 0 <= i < |a| ==> k[i] == a[i] && a[i] != '\0';
    assert forall i :: 0 <= i < |b| ==> k[i] == b[i] && b[i] != '\0';
    assert |a| == |b|;
    assert k[..|a|] == a && k[..|b|] == b;
    assert k[|a| + 1..] == s && k[|b| + 1..] == t;
  }

  // ---------------------------------------------------------------- when there is a key

  lemma {:induction false} NoWordsInBlanks(x: Script, s: string)
    ensures Fields(x, s) == [] <==> forall i :: 0 <= i < |s| ==> x.space(s[i])
    decreases |s|
  {
    if s != "" && x.space(s[0]) {
      NoWordsInBlanks(x, s[1..]);
      assert forall i :: 0 < i < |s| ==> s[i] == s[1..][i - 1];
    }
  }

  /** The characters of a text that are no blanks. */
  function Letters(x: Script, s: string): string {
    if s == "" then "" else (if x.space(s[0]) then "" else [s[0]]) + Letters(x, s[1..])
  }

  function Flat(ws: seq<string>): string {
    if ws == [] then "" else ws[0] + Flat(ws[1..])
  }

  lemma {:induction false} LettersOfWord(x: Script, s: string, n: nat)
    requires n <= |s| && forall i :: 0 <= i < n ==> !x.space(s[i])
    ensures Letters(x, s) == s[..n] + Letters(x, s[n..])
  {
    if n > 0 {
      LettersOfWord(x, s[1..], n - 1);
      assert s[1..][n - 1..] == s[n..] && s[..n] == [s[0]] + s[1..][..n - 1];
    }
  }

  /** The words of a text have all its letters, in order. */
  lemma {:induction false} WordsKeepTheLetters(x: Script, s: string)
    ensures Flat(Fields(x, s)) == Letters(x, s)
    decreases |s|
  {
    if s != "" {
      if x.space(s[0]) {
        WordsKeepTheLetters(x, s[1..]);
      } else {
        var n := WordLen(x, s);
        WordsKeepTheLetters(x, s[n..]);
        LettersOfWord(x, s, n);
        assert Fields(x, s)[1..] == Fields(x, s[n..]);
      }
    }
  }

  /** A goal has a key exactly when there is a channel and a goal with more than blanks in
      it: the channel, a NUL, and the case-folded words joined by single blanks. */
  lemma KeyExactly(x: Script, channel: string, goal: string)
    requires Sane(x)
    ensures Key(x, channel, goal) ==
            if channel != "" && exists i :: 0 <= i < |goal| && !x.space(goal[i])
            then Some(channel + "\0" + Join(Words(x, goal))) else None
  {
    NormalFormIsWords(x, goal);
    NoWordsInBlanks(x, Lower(x, goal));
    FieldsAreWords(x, Lower(x, goal));
    if Words(x, goal) != [] { JoinIsTight(x, Words(x, goal)); }
    assert forall i :: 0 <= i < |goal| ==> x.space(Lower(x, goal)[i]) == x.space(goal[i]);
  }
}
