/** UniqueFileNamesGenerator: a decimal counter kept as text in a file and incremented digit by digit. */
module UniqueNames {
  const INT_MAX: nat := 0x7fff_ffff

  predicate Digits(s: string) {
    forall i :: 0 <= i < |s| ==> '0' <= s[i] <= '9'
  }

  /** The number a digit stands for. */
  function Digit(c: char): int {
    c as int - '0' as int
  }

  function Value(s: string): int {
    if s == "" then 0 else Value(s[..|s| - 1]) * 10 + Digit(s[|s| - 1])
  }

  function DigitSum(s: string): int {
    if s == "" then 0 else DigitSum(s[..|s| - 1]) + Digit(s[|s| - 1])
  }

  predicate AllNines(s: string) {
    forall i :: 0 <= i < |s| ==> s[i] == '9'
  }

  /** The text after one call, and the carry loop's iterations. */
  function Successor(s: string): string {
    if s == "" then "1"
    else if s[|s| - 1] < '9' then s[..|s| - 1] + [(s[|s| - 1] as int + 1) as char]
    else Successor(s[..|s| - 1]) + "0"
  }

  function Iterations(s: string): nat {
    if s == "" then 0 else if s[|s| - 1] < '9' then 1 else 1 + Iterations(s[..|s| - 1])
  }

  lemma Extend(s: string, c: char)
    ensures Value(s + [c]) == Value(s) * 10 + Digit(c) && DigitSum(s + [c]) == DigitSum(s) + Digit(c)
  {
    assert (s + [c])[..|s|] == s;
  }

  lemma {:induction false} StillDigits(s: string)
    requires Digits(s)
    ensures Digits(Successor(s))
  {
    if s != "" && s[|s| - 1] == '9' {
      StillDigits(s[..|s| - 1]);
    }
  }

  /** A call adds exactly one, whatever the leading zeros. */
  lemma {:induction false} AddsOne(s: string)
    requires Digits(s)
    ensures Value(Successor(s)) == Value(s) + 1
  {
    if s == "" {
      assert "1"[..0] == "";
    } else {
      var init, last := s[..|s| - 1], s[|s| - 1];
      if last < '9' {
        Extend(init, (last as int + 1) as char);
      } else {
        AddsOne(init);
        Extend(Successor(init), '0');
      }
    }
  }

  /** The text grows by a digit just when it is all nines, and never shrinks. */
  lemma {:induction false} GrowsAtNines(s: string)
    requires Digits(s)
    ensures |Successor(s)| == |s| + if AllNines(s) then 1 else 0
  {
    if s != "" && s[|s| - 1] == '9' {
      var init := s[..|s| - 1];
      GrowsAtNines(init);
      assert s == init + ['9'];
      assert AllNines(s) <==> AllNines(init);
    }
  }

  /**
   * Digit by digit: the last digit that is not a nine goes up by one and the nines behind it become zeros; a text of
   * nines becomes a one and as many zeros.
   */
  lemma {:induction false} DigitsAfter(s: string, k: nat)
    requires Digits(s) && k <= |s| && AllNines(s[k..]) && (k > 0 ==> s[k - 1] != '9')
    ensures |Successor(s)| == if k == 0 then |s| + 1 else |s|
    ensures k == 0 ==> Successor(s)[0] == '1'
    ensures k > 0 ==> Successor(s)[..k - 1] == s[..k - 1] && Successor(s)[k - 1] as int == s[k - 1] as int + 1
    ensures forall i :: (if k == 0 then 1 else k) <= i < |Successor(s)| ==> Successor(s)[i] == '0'
    decreases |s|
  {
    if s != "" && k < |s| {
      var init := s[..|s| - 1];
      assert s[k..][|s| - 1 - k] == '9';
      assert forall i :: 0 <= i < |init[k..]| ==> init[k..][i] == s[k..][i];
      DigitsAfter(init, k);
    }
  }

  /** The price of one call, in iterations of the carry loop. */
  lemma {:induction false} CallCost(s: string)
    requires Digits(s)
    ensures 9 * Iterations(s) == 10 + DigitSum(s) - DigitSum(Successor(s)) - 9 * (|Successor(s)| - |s|)
  {
    if s == "" {
      assert "1"[..0] == "";
    } else {
      var init, last := s[..|s| - 1], s[|s| - 1];
      if last < '9' {
        Extend(init, (last as int + 1) as char);
      } else {
        CallCost(init);
        Extend(Successor(init), '0');
      }
    }
  }

  // ----- Runs of calls -----

  /** The text after n calls. */
  function Later(s: string, n: nat): string {
    if n == 0 then s else Successor(Later(s, n - 1))
  }

  /** Iterations of the carry loop over n calls. */
  function Work(s: string, n: nat): nat {
    if n == 0 then 0 else Work(s, n - 1) + Iterations(Later(s, n - 1))
  }

  lemma {:induction false} LaterDigits(s: string, n: nat)
    requires Digits(s)
    ensures Digits(Later(s, n))
  {
    if n > 0 {
      LaterDigits(s, n - 1);
      StillDigits(Later(s, n - 1));
    }
  }

  /** The name a call returns. */
  function Name(stem: string, text: string, suffix: string): string { stem + text + suffix }

  lemma OneMore(s: string, n: nat, t: string)
    requires t == Later(s, n)
    ensures Later(s, n + 1) == Successor(t) && Work(s, n + 1) == Work(s, n) + Iterations(t)
  {
  }

  /** What the last of n calls adds. */
  lemma LastCall(s: string, n: nat)
    requires Digits(s) && n > 0
    ensures Value(Later(s, n)) == Value(Later(s, n - 1)) + 1
    ensures 9 * (Work(s, n) - Work(s, n - 1))
      == 10 + DigitSum(Later(s, n - 1)) - DigitSum(Later(s, n)) - 9 * (|Later(s, n)| - |Later(s, n - 1)|)
  {
    var t := Later(s, n - 1);
    LaterDigits(s, n - 1);
    OneMore(s, n - 1, t);
    AddsOne(t);
    CallCost(t);
  }

  lemma {:induction false} LaterValue(s: string, n: nat)
    requires Digits(s)
    ensures Value(Later(s, n)) == Value(s) + n
  {
    if n > 0 {
      LaterValue(s, n - 1);
      LastCall(s, n);
    }
  }

  lemma {:induction false} LaterLength(s: string, n: nat)
    requires Digits(s)
    ensures |s| <= |Later(s, n)| <= |s| + n
  {
    if n > 0 {
      var t := Later(s, n - 1);
      LaterLength(s, n - 1);
      LaterDigits(s, n - 1);
      GrowsAtNines(t);
      assert Later(s, n) == Successor(t);
    }
  }

  lemma NameTellsText(stem: string, t: string, u: string, suffix: string)
    requires Name(stem, t, suffix) == Name(stem, u, suffix)
    ensures t == u
  {
    assert |t| == |u|;
    assert Name(stem, t, suffix)[|stem|..|stem| + |t|] == t;
    assert Name(stem, u, suffix)[|stem|..|stem| + |u|] == u;
  }

  /** Pairwise distinct names over any run of calls. */
  lemma NamesDistinct(stem: string, s: string, suffix: string, i: nat, j: nat)
    requires Digits(s) && i != j
    ensures Name(stem, Later(s, i), suffix) != Name(stem, Later(s, j), suffix)
  {
    LaterValue(s, i);
    LaterValue(s, j);
    if Name(stem, Later(s, i), suffix) == Name(stem, Later(s, j), suffix) {
      NameTellsText(stem, Later(s, i), Later(s, j), suffix);
    }
  }

  /** Ten times the calls, less what the digit sum and the length have gained. */
  function Balance(s: string, t: string, n: nat): int {
    10 * n + DigitSum(s) - DigitSum(t) - 9 * (|t| - |s|)
  }

  lemma BalanceStep(s: string, n: nat)
    requires Digits(s) && n > 0
    ensures Balance(s, Later(s, n), n) - Balance(s, Later(s, n - 1), n - 1) == 9 * (Work(s, n) - Work(s, n - 1))
  {
    LastCall(s, n);
  }

  /** The exact cost of n calls. */
  lemma {:induction false} CostIdentity(s: string, n: nat)
    requires Digits(s)
    ensures 9 * Work(s, n) == Balance(s, Later(s, n), n)
  {
    if n > 0 {
      CostIdentity(s, n - 1);
      BalanceStep(s, n);
    }
  }

  lemma {:induction false} DigitSumAtMost(s: string)
    requires Digits(s)
    ensures 0 <= DigitSum(s) <= 9 * |s|
  {
    if s != "" {
      DigitSumAtMost(s[..|s| - 1]);
    }
  }

  /** Linear in the number of calls: ten ninths of an iteration each, and the first text's digits once. */
  lemma LinearWork(s: string, n: nat)
    requires Digits(s)
    ensures 9 * Work(s, n) <= 10 * n + 9 * |s|
  {
    CostIdentity(s, n);
    LaterLength(s, n);
    LaterDigits(s, n);
    DigitSumAtMost(Later(s, n));
    DigitSumAtMost(s);
  }

  /** The carry loop, from the last digit towards the first. */
  method Increment(text: string) returns (content: string, ghost steps: nat)
    requires Digits(text) && |text| <= INT_MAX
    ensures content == Successor(text) && steps == Iterations(text)
  {
    content, steps := text, 0;
    var i := |content| - 1;
    assert text[..i + 1] == text && content[i + 1..] == "";
    assert Successor(text) == Successor(text) + "";
    while i >= 0
      invariant -1 <= i < |text| == |content| && content[..i + 1] == text[..i + 1]
      invariant Successor(text) == Successor(text[..i + 1]) + content[i + 1..]
      invariant Iterations(text) == steps + Iterations(text[..i + 1])
    {
      ghost var init, tail := text[..i + 1], content[i + 1..];
      assert init[..i] == text[..i] && init[i] == text[i] == content[i];
      steps := steps + 1;
      if content[i] < '9' {
        content := content[i := (content[i] as int + 1) as char];
        assert content == init[..i] + [content[i]] + tail;
        break;
      }
      content := content[i := '0'];
      assert content[i..] == "0" + tail;
      assert (Successor(init[..i]) + "0") + tail == Successor(init[..i]) + ("0" + tail);
      i := i - 1;
    }
    if i == -1 {
      assert text[..0] == "" && content[0..] == content;
      content := ['1'] + content;
    }
  }

  /** The names of n calls. */
  function Names(stem: string, s: string, suffix: string, n: nat): (ns: seq<string>)
    ensures |ns| == n
  {
    if n == 0 then [] else Names(stem, s, suffix, n - 1) + [Name(stem, Later(s, n - 1), suffix)]
  }

  lemma {:induction false} NameAt(stem: string, s: string, suffix: string, n: nat, i: nat)
    requires i < n
    ensures Names(stem, s, suffix, n)[i] == Name(stem, Later(s, i), suffix)
  {
    if i < n - 1 {
      NameAt(stem, s, suffix, n - 1, i);
    }
  }

  /** The names handed out are those of the texts from `start` on, and the work done is what they cost. */
  ghost predicate Issued(start: string, text: string, names: seq<string>, work: nat, stem: string, suffix: string) {
    && Digits(start) && text == Later(start, |names|)
    && work == Work(start, |names|) && names == Names(stem, start, suffix, |names|)
  }

  lemma IssuesOne(start: string, text: string, names: seq<string>, work: nat, stem: string, suffix: string)
    requires Issued(start, text, names, work, stem, suffix)
    ensures Issued(start, Successor(text), names + [Name(stem, text, suffix)], work + Iterations(text), stem, suffix)
  {
    OneMore(start, |names|, text);
  }

  // ----- The file -----

  /** Writing text at position 0 of a file that is not truncated. */
  function Overwrite(file: string, text: string): (r: string)
    ensures |r| == if |text| < |file| then |file| else |text|
    ensures forall i :: 0 <= i < |r| ==> r[i] == if i < |text| then text[i] else file[i]
  {
    text + if |text| < |file| then file[|text|..] else ""
  }

  /** The text never gets shorter, so no digit of an older text is left behind it. */
  lemma NoStaleTail(file: string)
    requires Digits(file)
    ensures Overwrite(file, Successor(file)) == Successor(file)
  {
    GrowsAtNines(file);
  }

  /** std::filesystem::path::operator/, as text. */
  function Join(path: string, name: string): string {
    if name != "" && name[0] == '/' then name
    else if path == "" || path[|path| - 1] == '/' then path + name
    else path + "/" + name
  }

  class UniqueFileNamesGenerator {
    const path: string
    const prefix: string
    const suffix: string
    var uniqueNamesFile: string

    // history since the file was opened
    ghost const start: string
    ghost var names: seq<string>
    ghost var work: nat

    /** The text the next call reads. */
    function Text(): string
      reads this
    {
      if uniqueNamesFile == "" then "0" else uniqueNamesFile
    }

    ghost predicate Valid()
      reads this
    {
      Issued(start, Text(), names, work, Join(path, prefix), suffix)
    }

    /** No name is ever handed out twice, whichever overloads were called, and the work is linear in the calls. */
    lemma Unique()
      requires Valid()
      ensures forall i, j :: 0 <= i < j < |names| ==> names[i] != names[j]
      ensures 9 * work <= 10 * |names| + 9 * |start|
    {
      forall i, j | 0 <= i < j < |names| ensures names[i] != names[j] {
        NameAt(Join(path, prefix), start, suffix, |names|, i);
        NameAt(Join(path, prefix), start, suffix, |names|, j);
        NamesDistinct(Join(path, prefix), start, suffix, i, j);
      }
      LinearWork(start, |names|);
    }

    /** An open counter file that holds only digits. */
    constructor (path: string, prefix: string, suffix: string, file: string)
      requires Digits(file)
      ensures Valid() && names == [] && uniqueNamesFile == file && start == Text()
      ensures this.path == path && this.prefix == prefix && this.suffix == suffix
    {
      this.path, this.prefix, this.suffix, this.uniqueNamesFile := path, prefix, suffix, file;
      start, names, work := if file == "" then "0" else file, [], 0;
    }

    /** seekg to the end for the size, back to 0, and read that many characters; an empty file counts as zero. */
    method Read() returns (content: string)
      ensures content == Text() && content == if uniqueNamesFile == "" then "0" else uniqueNamesFile
    {
      var size := |uniqueNamesFile|;
      if size > 0 {
        content := uniqueNamesFile[..size];
      } else {
        content := "0";
      }
    }

    /** seekp(0), write and flush. */
    method Write(ghost text: string, content: string, ghost result: string, ghost steps: nat)
      requires Valid() && text == Text() && content == Successor(text) && steps == Iterations(text)
      requires result == Name(Join(path, prefix), text, suffix)
      modifies this
      ensures Valid() && names == old(names) + [result] && uniqueNamesFile == content
    {
      LaterDigits(start, |names|);
      GrowsAtNines(text);
      IssuesOne(start, text, names, work, Join(path, prefix), suffix);
      uniqueNamesFile := Overwrite(uniqueNamesFile, content);
      names, work := names + [result], work + steps;
    }

    method GetUniqueName() returns (result: string)
      requires Valid() && |Text()| <= INT_MAX
      modifies this
      ensures Valid() && names == old(names) + [result]
      ensures var text := if old(uniqueNamesFile) == "" then "0" else old(uniqueNamesFile);
        && ("/" <= prefix ==> result == prefix + text + suffix)
        && (!("/" <= prefix) && (path == "" || path[|path| - 1] == '/') ==> result == path + prefix + text + suffix)
        && (!("/" <= prefix) && path != "" && path[|path| - 1] != '/' ==>
              result == path + "/" + prefix + text + suffix)
        && uniqueNamesFile == Successor(text)
    {
      var content := Read();
      result := Join(path, prefix) + content + suffix;
      LaterDigits(start, |names|);
      var next, steps := Increment(content);
      Write(content, next, result, steps);
    }

    /** The overload that assigns its argument. */
    method AssignUniqueName() returns (value: string)
      requires Valid() && |Text()| <= INT_MAX
      modifies this
      ensures Valid() && names == old(names) + [value]
      ensures var text := if old(uniqueNamesFile) == "" then "0" else old(uniqueNamesFile);
        && ("/" <= prefix ==> value == prefix + text + suffix)
        && (!("/" <= prefix) && (path == "" || path[|path| - 1] == '/') ==> value == path + prefix + text + suffix)
        && (!("/" <= prefix) && path != "" && path[|path| - 1] != '/' ==>
              value == path + "/" + prefix + text + suffix)
        && uniqueNamesFile == Successor(text)
    {
      var content := Read();
      value := Join(path, prefix) + content + suffix;
      LaterDigits(start, |names|);
      var next, steps := Increment(content);
      Write(content, next, value, steps);
    }
  }
}
