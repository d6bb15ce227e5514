/** Values both drafts of the quiz page share: the question record, the parsed
    question bank, the two pads of code lines and how a line moves between
    them, JavaScript's String.prototype.trim, and the end-of-quiz percentage. */
module QuizBasics {

  datatype Option<T> = None | Some(value: T)

  function Min(a: int, b: int): int { if a <= b then a else b }

  /** A question of the bank: its prompt and its code lines in the correct order. */
  datatype Question = Question(question: string, code: seq<string>)

  /** One key/value pair of a parsed JSON object. An object is the sequence
      of its entries in the order Object.values visits them. */
  datatype Entry<T> = Entry(key: string, value: T)
  type JsonObject<T> = seq<Entry<T>>

  /** The parsed questions.json: an object of objects of question arrays. */
  type Bank = JsonObject<JsonObject<seq<Question>>>

  /** An object as JSON.parse builds it: no key occurs twice. */
  predicate Keyed<T>(o: JsonObject<T>) {
    forall i, j :: 0 <= i < j < |o| ==> o[i].key != o[j].key
  }

  predicate WellKeyed(b: Bank) {
    Keyed(b) && forall i :: 0 <= i < |b| ==> Keyed(b[i].value)
  }

  /** Property access `o[k]`: the value stored under `k`, if `o` has that key. */
  function Get<T>(o: JsonObject<T>, k: string): (r: Option<T>)
    ensures r.Some? <==> exists i :: 0 <= i < |o| && o[i].key == k
    ensures r.Some? ==> exists i :: 0 <= i < |o| && o[i] == Entry(k, r.value)
    ensures Keyed(o) ==> forall i :: 0 <= i < |o| && o[i].key == k ==> r == Some(o[i].value)
  {
    if o == [] then None
    else if o[0].key == k then Some(o[0].value)
    else
      var r := Get(o[1..], k);
      assert forall i :: 0 <= i < |o[1..]| ==> o[1..][i] == o[i + 1];
      r
  }

  /** The source of Math.random for one shuffle: the draw taken when the loop
      stands at index i. The loop swaps with index draws(i) % (i + 1), the
      value Math.floor(Math.random() * (i + 1)) takes. */
  type Draws = nat -> nat

  /** The index the loop at index i swaps with: always one at or below i. */
  function Pick(draws: Draws, i: nat): (j: nat)
    ensures j <= i
  {
    draws(i) % (i + 1)
  }

  /** The outcome of one checkAnswerCompletion call. `Thrown` is the TypeError
      raised when quiz[currentIndex] does not exist. */
  datatype Status = Thrown | Incomplete | Judged(correct: bool)

  // ---------- pads ----------

  /** The two containers of code-line elements: the learner's answer and the
      remaining options. */
  datatype Pad = AnswerPad | OptionsPad

  function Other(p: Pad): Pad { if p == AnswerPad then OptionsPad else AnswerPad }

  datatype Pads = Pads(answer: seq<string>, options: seq<string>) {
    function Lines(p: Pad): seq<string> { if p == AnswerPad then answer else options }
    function All(): seq<string> { answer + options }
  }

  /** `s` with its k-th element taken out. */
  function Without<T>(s: seq<T>, k: nat): (r: seq<T>)
    requires k < |s|
    ensures |r| == |s| - 1
    ensures multiset(r) + multiset{s[k]} == multiset(s)
  {
    assert s == s[..k] + [s[k]] + s[k + 1..];
    s[..k] + s[k + 1..]
  }

  /** `to.appendChild(line)` for the k-th line of pad `from`: the line leaves
      its place and becomes the last line of `to` (of the same pad, when the
      line is dropped where it already is). */
  function Move(pads: Pads, from: Pad, k: nat, to: Pad): (r: Pads)
    requires k < |pads.Lines(from)|
    ensures r.Lines(to) == (if from == to then Without(pads.Lines(to), k) else pads.Lines(to)) + [pads.Lines(from)[k]]
    ensures from != to ==> r.Lines(from) == Without(pads.Lines(from), k)
    ensures from == to ==> r.Lines(Other(to)) == pads.Lines(Other(to))
    ensures multiset(r.All()) == multiset(pads.All())
  {
    var line := pads.Lines(from)[k];
    var left := Without(pads.Lines(from), k);
    var moved :=
      if from == to then (if to == AnswerPad then Pads(left + [line], pads.options) else Pads(pads.answer, left + [line]))
      else if to == AnswerPad then Pads(pads.answer + [line], left)
      else Pads(left, pads.options + [line]);
    assert multiset(pads.Lines(from)) == multiset(left) + multiset{line};
    moved
  }

  // ---------- String.prototype.trim ----------

  /** The code points trim removes: ECMAScript's WhiteSpace (tab, vertical tab,
      form feed, space, no-break space, byte order mark and the other Unicode
      space separators) and LineTerminator (line feed, carriage return, line
      and paragraph separator). */
  predicate IsTrimmable(c: char) {
    c == '\t' || c == '\n' || c == '\U{B}' || c == '\U{C}' || c == '\r' || c == ' '
    || c == '\U{A0}' || c == '\U{1680}' || ('\U{2000}' <= c <= '\U{200A}')
    || c == '\U{2028}' || c == '\U{2029}' || c == '\U{202F}' || c == '\U{205F}'
    || c == '\U{3000}' || c == '\U{FEFF}'
  }

  predicate AllTrimmable(s: string) {
    forall i :: 0 <= i < |s| ==> IsTrimmable(s[i])
  }

  /** `s` without its leading trimmable characters. */
  function TrimStart(s: string): string {
    if s != [] && IsTrimmable(s[0]) then TrimStart(s[1..]) else s
  }

  /** `s` without its trailing trimmable characters. */
  function TrimEnd(s: string): string {
    if s != [] && IsTrimmable(s[|s| - 1]) then TrimEnd(s[..|s| - 1]) else s
  }

  /** TrimStart drops a run of trimmable characters from the front and
      stops at the first one that is not. */
  lemma {:induction false} TrimStartIsSuffix(s: string)
    ensures var r := TrimStart(s);
            && |r| <= |s| && r == s[|s| - |r|..]
            && AllTrimmable(s[..|s| - |r|])
            && (r == [] || !IsTrimmable(r[0]))
  {
    if s != [] && IsTrimmable(s[0]) {
      TrimStartIsSuffix(s[1..]);
      var r := TrimStart(s[1..]);
      assert s[..|s| - |r|] == [s[0]] + s[1..][..|s[1..]| - |r|];
    }
  }

  /** TrimEnd drops a run of trimmable characters from the back and stops
      at the last one that is not. */
  lemma {:induction false} TrimEndIsPrefix(s: string)
    ensures var r := TrimEnd(s);
            && |r| <= |s| && r == s[..|r|]
            && AllTrimmable(s[|r|..])
            && (r == [] || !IsTrimmable(r[|r| - 1]))
  {
    if s != [] && IsTrimmable(s[|s| - 1]) {
      TrimEndIsPrefix(s[..|s| - 1]);
      var r := TrimEnd(s[..|s| - 1]);
      assert s[|r|..] == s[..|s| - 1][|r|..] + [s[|s| - 1]];
    }
  }

  /** `s.trim()`. */
  function Trim(s: string): string {
    TrimEnd(TrimStart(s))
  }

  /** What trim returns: the part of `s` between its leading and its trailing
      run of trimmable characters, itself neither starting nor ending with one. */
  lemma TrimIsInterior(s: string)
    ensures var r := Trim(s);
            && (r == [] || (!IsTrimmable(r[0]) && !IsTrimmable(r[|r| - 1])))
            && exists p :: 0 <= p <= |s| - |r| && r == s[p..p + |r|] && AllTrimmable(s[..p]) && AllTrimmable(s[p + |r|..])
  {
    var t := TrimStart(s);
    var r := TrimEnd(t);
    TrimStartIsSuffix(s);
    TrimEndIsPrefix(t);
    var p := |s| - |t|;
    assert r == s[p..p + |r|];
    assert s[p + |r|..] == t[|r|..];
  }

  lemma TrimStartStep(s: string)
    requires s != [] && IsTrimmable(s[0])
    ensures TrimStart(s) == TrimStart(s[1..])
  {
  }

  lemma TrimEndStep(s: string)
    requires s != [] && IsTrimmable(s[|s| - 1])
    ensures TrimEnd(s) == TrimEnd(s[..|s| - 1])
  {
  }

  lemma {:induction false} TrimStartPadded(pre: string, s: string)
    requires AllTrimmable(pre)
    ensures TrimStart(pre + s) == TrimStart(s)
    decreases |pre|
  {
    if pre == [] {
      assert pre + s == s;
    } else {
      var x := pre + s;
      assert x[0] == pre[0];
      assert x[1..] == pre[1..] + s;
      TrimStartStep(x);
      assert AllTrimmable(pre[1..]) by {
        forall i | 0 <= i < |pre[1..]| ensures IsTrimmable(pre[1..][i]) {
          assert pre[1..][i] == pre[i + 1];
        }
      }
      TrimStartPadded(pre[1..], s);
    }
  }

  lemma {:induction false} TrimEndPadded(s: string, post: string)
    requires AllTrimmable(post)
    ensures TrimEnd(s + post) == TrimEnd(s)
    decreases |post|
  {
    if post == [] {
      assert s + post == s;
    } else {
      var x, n := s + post, |post| - 1;
      assert x[|x| - 1] == post[n];
      assert x[..|x| - 1] == s + post[..n];
      TrimEndStep(x);
      assert AllTrimmable(post[..n]) by {
        forall i | 0 <= i < n ensures IsTrimmable(post[..n][i]) {
          assert post[..n][i] == post[i];
        }
      }
      TrimEndPadded(s, post[..n]);
    }
  }

  /** Trimming at the front does not look at the tail once a non-trimmable
      character has been met; an all-trimmable prefix is skipped entirely. */
  lemma {:induction false} TrimStartAppend(s: string, post: string)
    ensures TrimStart(s + post) == if TrimStart(s) == [] then TrimStart(post) else TrimStart(s) + post
    decreases |s|
  {
    if s == [] {
      assert s + post == post;
    } else if IsTrimmable(s[0]) {
      assert (s + post)[1..] == s[1..] + post;
      TrimStartAppend(s[1..], post);
    }
  }

  lemma SuffixAllTrimmable(s: string, n: nat)
    requires AllTrimmable(s) && n <= |s|
    ensures AllTrimmable(s[n..])
  {
    assert forall i :: 0 <= i < |s| - n ==> s[n..][i] == s[n + i];
  }

  /** Whitespace around a line does not change what trim returns: the reason
      an indented answer line still matches its expected line. */
  lemma TrimIgnoresPadding(pre: string, s: string, post: string)
    requires AllTrimmable(pre) && AllTrimmable(post)
    ensures Trim(pre + s + post) == Trim(s)
  {
    assert pre + s + post == pre + (s + post);
    TrimStartPadded(pre, s + post);
    TrimStartAppend(s, post);
    if TrimStart(s) == [] {
      TrimStartIsSuffix(post);
      SuffixAllTrimmable(post, |post| - |TrimStart(post)|);
      TrimEndPadded([], TrimStart(post));
      assert [] + TrimStart(post) == TrimStart(post);
    } else {
      TrimEndPadded(TrimStart(s), post);
    }
  }

  // ---------- end-of-quiz percentage ----------

  /** The JavaScript numbers Math.round((score / length) * 100) can give here:
      a whole percentage, +Infinity (score > 0 over an empty quiz) or NaN (0/0). */
  datatype Percent = Whole(value: nat) | Infinity | NaN

  /** 100 * score / len rounded to the nearest integer, halves upward. */
  function RoundedPercent(score: nat, len: nat): (p: nat)
    requires len > 0
    ensures len * (2 * p - 1) <= 200 * score < len * (2 * p + 1)
  {
    var n, d := 200 * score + len, 2 * len;
    var p := n / d;
    assert d * p <= n < d * p + d;
    p
  }

  function EndPercent(score: nat, len: nat): Percent {
    if len > 0 then Whole(RoundedPercent(score, len))
    else if score > 0 then Infinity
    else NaN
  }

  /** `percent >= 80` on a JavaScript number: Infinity passes, NaN does not. */
  predicate AtLeast80(p: Percent) {
    match p
    case Whole(v) => v >= 80
    case Infinity => true
    case NaN => false
  }

  lemma MulLe(a: int, b: int, c: int)
    requires c >= 0 && a <= b
    ensures c * a <= c * b
  {
  }

  /** The passing threshold stated on score and length alone: a quiz of length
      len > 0 reaches 80% exactly when score / len >= 0.795. */
  lemma ReachesEighty(score: nat, len: nat)
    ensures AtLeast80(EndPercent(score, len)) <==> (if len == 0 then score > 0 else 200 * score >= 159 * len)
  {
    if len > 0 {
      var p := RoundedPercent(score, len);
      if p >= 80 {
        MulLe(159, 2 * p - 1, len);
      } else {
        MulLe(2 * p + 1, 159, len);
      }
    }
  }

  /** A score no larger than the quiz gives a whole percentage of at most 100,
      and a full score gives exactly 100. */
  lemma PercentInRange(score: nat, len: nat)
    requires 0 < len && score <= len
    ensures EndPercent(score, len).Whole? && EndPercent(score, len).value <= 100
    ensures score == len ==> EndPercent(score, len) == Whole(100)
  {
    var p := RoundedPercent(score, len);
    if p > 100 {
      MulLe(201, 2 * p - 1, len);
    }
    if score == len && p < 100 {
      MulLe(2 * p + 1, 199, len);
    }
  }
}
