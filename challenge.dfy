// What a member is asked to prove: the captcha text, the identity question
// with its date options, and (older snapshot) the shuffled quiz buttons.
// Random draws arrive as parameters, each within the range it is drawn from.

module Challenge {
  import opened Common

  // ---------------------------------------------------------------- captcha

  /** Characters that survive distortion without being confused with each other. */
  const CAPTCHA_CHARS := "ACDEFGHJKMNPQRTUVWXY3467"
  const CAPTCHA_LENGTH_MIN := 5
  const CAPTCHA_LENGTH_MAX := 7   // exclusive upper bound of the length draw

  datatype Captcha = Captcha(text: string, answer: string)

  /**
   * generateCaptcha. `lengthDraw` is randomInt(5, 7), whose upper bound is
   * exclusive, and `charDraws[i]` is the i-th randomInt(24).
   */
  method GenerateCaptcha(lengthDraw: int, charDraws: seq<int>) returns (c: Captcha)
    requires CAPTCHA_LENGTH_MIN <= lengthDraw < CAPTCHA_LENGTH_MAX
    requires |charDraws| == lengthDraw
    requires forall i :: 0 <= i < |charDraws| ==> 0 <= charDraws[i] < |CAPTCHA_CHARS|
    ensures |c.text| == 5 || |c.text| == 6
    ensures |c.text| == lengthDraw
    ensures forall i :: 0 <= i < |c.text| ==> c.text[i] == CAPTCHA_CHARS[charDraws[i]]
    ensures forall ch :: ch in c.text ==> ch in CAPTCHA_CHARS
    ensures c.answer == c.text
  {
    var text := "";
    var i := 0;
    while i < lengthDraw
      invariant 0 <= i <= lengthDraw
      invariant |text| == i
      invariant forall k :: 0 <= k < i ==> text[k] == CAPTCHA_CHARS[charDraws[k]]
    {
      text := text + [CAPTCHA_CHARS[charDraws[i]]];
      i := i + 1;
    }
    c := Captcha(text, text);
  }

  // -------------------------------------------------------------- fake dates

  const DAY_MS := 86400000

  /** One attempt's draws: randomInt(1, 180) days, and randomInt(2) choosing the sign. */
  datatype OffsetDraw = OffsetDraw(days: int, sign: int)

  predicate ValidOffsetDraw(d: OffsetDraw)
  {
    1 <= d.days < 180 && 0 <= d.sign < 2
  }

  function OffsetDays(d: OffsetDraw): int
  {
    d.days * (if d.sign == 0 then 1 else -1)
  }

  predicate Distinct(s: seq<string>)
  {
    forall i, j :: 0 <= i < j < |s| ==> s[i] != s[j]
  }

  /**
   * The date a draw renders to: the real date shifted by the drawn number of
   * days. `format` renders a timestamp as a date (toLocaleDateString).
   */
  function RenderDraw(realDate: int, format: int -> string, d: OffsetDraw): string
  {
    format(realDate + OffsetDays(d) * DAY_MS)
  }

  /**
   * Reference for generateFakeDates: the renderings of `ds` in draw order,
   * keeping each one the first time it appears and never the correct one.
   */
  function FirstSeen(realDate: int, format: int -> string, ds: seq<OffsetDraw>): seq<string>
    decreases |ds|
  {
    if ds == [] then []
    else
      var prev := FirstSeen(realDate, format, ds[..|ds| - 1]);
      var f := RenderDraw(realDate, format, ds[|ds| - 1]);
      if f != format(realDate) && f !in prev then prev + [f] else prev
  }

  /** Every rendering of a consumed draw is either the correct date or among the kept ones. */
  lemma {:induction false} FirstSeenCovers(realDate: int, format: int -> string, ds: seq<OffsetDraw>)
    ensures forall k :: 0 <= k < |ds| ==>
      RenderDraw(realDate, format, ds[k]) == format(realDate) || RenderDraw(realDate, format, ds[k]) in FirstSeen(realDate, format, ds)
  {
    if ds != [] {
      var init := ds[..|ds| - 1];
      FirstSeenCovers(realDate, format, init);
      forall k | 0 <= k < |ds|
        ensures RenderDraw(realDate, format, ds[k]) == format(realDate) || RenderDraw(realDate, format, ds[k]) in FirstSeen(realDate, format, ds)
      {
        if k < |ds| - 1 {
          assert ds[k] == init[k];
        }
      }
    }
  }

  /**
   * generateFakeDates: up to count * 10 draws, keeping a rendering only when
   * it is new and not the real date; the result lists the kept dates in the
   * order the set first received them.
   */
  method GenerateFakeDates(realDate: int, count: nat, format: int -> string, draws: seq<OffsetDraw>)
    returns (fakes: seq<string>, attempts: nat)
    requires |draws| >= count * 10
    requires forall k :: 0 <= k < |draws| ==> ValidOffsetDraw(draws[k])
    ensures attempts <= count * 10
    ensures |fakes| <= count
    ensures Distinct(fakes)
    ensures forall f :: f in fakes ==> f != format(realDate)
    ensures forall f :: f in fakes ==> exists k :: 0 <= k < attempts && f == RenderDraw(realDate, format, draws[k])
    ensures fakes == FirstSeen(realDate, format, draws[..attempts])
    ensures forall k :: 0 <= k < attempts ==>
      RenderDraw(realDate, format, draws[k]) == format(realDate) || RenderDraw(realDate, format, draws[k]) in fakes
    ensures |fakes| < count ==> attempts == count * 10
  {
    fakes := [];
    attempts := 0;
    var maxAttempts := count * 10;
    var correct := format(realDate);
    while |fakes| < count && attempts < maxAttempts
      invariant attempts <= maxAttempts
      invariant |fakes| <= count
      invariant Distinct(fakes)
      invariant forall f :: f in fakes ==> f != correct
      invariant forall f :: f in fakes ==> exists k :: 0 <= k < attempts && f == RenderDraw(realDate, format, draws[k])
      invariant fakes == FirstSeen(realDate, format, draws[..attempts])
      decreases maxAttempts - attempts
    {
      var d := draws[attempts];
      assert draws[..attempts + 1][..attempts] == draws[..attempts];
      attempts := attempts + 1;
      var fake := realDate + OffsetDays(d) * DAY_MS;
      var formatted := format(fake);
      if formatted != correct && formatted !in fakes {
        fakes := fakes + [formatted];
      }
    }
    FirstSeenCovers(realDate, format, draws[..attempts]);
    forall k | 0 <= k < attempts
      ensures RenderDraw(realDate, format, draws[k]) == correct || RenderDraw(realDate, format, draws[k]) in fakes
    {
      assert draws[..attempts][k] == draws[k];
    }
  }

  /**
   * The date choices: the correct rendering inserted at `pos` (splice), the
   * others keeping their order around it.
   */
  function Splice(options: seq<string>, pos: nat, x: string): (r: seq<string>)
    ensures |r| == |options| + 1
    ensures pos <= |options| ==> r[pos] == x
    ensures pos > |options| ==> r[|options|] == x
    ensures forall i :: 0 <= i < |options| ==> r[if i < pos then i else i + 1] == options[i]
  {
    if pos >= |options| then options + [x] else options[..pos] + [x] + options[pos..]
  }

  function Numbered(options: seq<string>): (r: seq<string>)
    ensures |r| == |options|
  {
    seq(|options|, i requires 0 <= i < |options| => NatToString(i + 1) + ". " + options[i])
  }

  datatype DateQuestion = DateQuestion(options: seq<string>, answer: string)

  /** The correct date spliced in at answerPos; the expected reply is answerPos + 1. */
  function AskDate(correct: string, fakes: seq<string>, answerPos: nat): DateQuestion
  {
    DateQuestion(Splice(fakes, answerPos, correct), NatToString(answerPos + 1))
  }

  /** With three fakes, the correct date is shown as option answerPos + 1, which is the expected reply. */
  lemma AskDateWithThreeFakes(correct: string, fakes: seq<string>, answerPos: nat)
    requires |fakes| == 3 && answerPos < 4
    requires correct !in fakes
    ensures var q := AskDate(correct, fakes, answerPos);
      |q.options| == 4 && q.options[answerPos] == correct
      && (forall i :: 0 <= i < 4 && i != answerPos ==> q.options[i] != correct)
      && q.answer == NatToString(answerPos + 1)
      && q.answer in ["1", "2", "3", "4"]
  {
    var q := AskDate(correct, fakes, answerPos);
    forall i | 0 <= i < 4 && i != answerPos ensures q.options[i] != correct {
      if i < answerPos {
        assert q.options[i] == fakes[i];
      } else {
        assert q.options[i] == fakes[i - 1];
      }
    }
  }

  /**
   * With fewer than three fakes the splice position can lie past the end:
   * one fake and answerPos 3 show the correct date as option 2 but expect "4".
   */
  lemma AskDateShortListDisagrees()
    ensures var q := AskDate("Jan 1, 2020", ["Feb 2, 2020"], 3);
      |q.options| == 2 && q.options[1] == "Jan 1, 2020" && q.answer == "4"
  {
  }

  datatype QuestionType = ServerJoin | AccountCreated | InviteCodeQuestion

  /** Join date and creation date are always possible; the invite question only when a code is stored. */
  function QuestionTypes(inviteCode: Option<string>): (r: seq<QuestionType>)
    ensures |r| == 2 || |r| == 3
    ensures InviteCodeQuestion in r <==> Truthy(inviteCode)
  {
    [ServerJoin, AccountCreated] + (if Truthy(inviteCode) then [InviteCodeQuestion] else [])
  }

  /** The rendered lines, the offered dates (none for the invite question), the expected reply and the hint. */
  datatype ContextChallenge = ContextChallenge(kind: QuestionType, lines: seq<string>, options: seq<string>,
                                               answer: string, hint: string)

  const DATE_HINT := "Type the **number** (1\U{2013}4) of the correct date."
  const INVITE_HINT := "Type the **exact invite code** (e.g. `aBcDeFg`)."
  const JOIN_TITLE := "When did you join this server?"
  const CREATED_TITLE := "When was your Discord account created?"

  /** The date a date question is about: the join date (now when unknown) or the account's creation. */
  function QuestionDate(kind: QuestionType, joinedAt: Option<int>, accountCreatedAt: int, now: int): int
  {
    if kind == ServerJoin then Coalesce(joinedAt, now) else accountCreatedAt
  }

  /**
   * The question part of createContextChallenge. `typeDraw` is
   * randomInt(number of types), `answerPos` is randomInt(4), `format` is the
   * date rendering and `draws` the fake-date draws.
   */
  method BuildContextChallenge(typeDraw: nat, joinedAt: Option<int>, accountCreatedAt: int, now: int,
                               inviteCode: Option<string>, format: int -> string,
                               draws: seq<OffsetDraw>, answerPos: nat)
    returns (c: ContextChallenge)
    requires typeDraw < |QuestionTypes(inviteCode)|
    requires answerPos < 4
    requires |draws| >= 30 && forall k :: 0 <= k < |draws| ==> ValidOffsetDraw(draws[k])
    ensures c.kind == QuestionTypes(inviteCode)[typeDraw]
    ensures c.kind == InviteCodeQuestion ==>
      c.answer == inviteCode.value && c.hint == INVITE_HINT && c.options == []
    ensures c.kind != InviteCodeQuestion ==>
      var correct := format(QuestionDate(c.kind, joinedAt, accountCreatedAt, now));
      c.answer == NatToString(answerPos + 1) && c.hint == DATE_HINT
      && c.lines == [if c.kind == ServerJoin then JOIN_TITLE else CREATED_TITLE, ""] + Numbered(c.options)
      && 1 <= |c.options| <= 4
      && (|c.options| == 4 ==> c.options[answerPos] == correct
                               && forall i :: 0 <= i < 4 && i != answerPos ==> c.options[i] != correct)
  {
    var kind := QuestionTypes(inviteCode)[typeDraw];
    if kind == InviteCodeQuestion {
      c := ContextChallenge(kind, ["What invite code did you use", "to join this server?"], [],
                            Coalesce(inviteCode, ""), INVITE_HINT);
    } else {
      var date := QuestionDate(kind, joinedAt, accountCreatedAt, now);
      var fakes, _ := GenerateFakeDates(date, 3, format, draws);
      var correct := format(date);
      var q := AskDate(correct, fakes, answerPos);
      if |fakes| == 3 {
        AskDateWithThreeFakes(correct, fakes, answerPos);
      }
      var title := if kind == ServerJoin then JOIN_TITLE else CREATED_TITLE;
      c := ContextChallenge(kind, [title, ""] + Numbered(q.options), q.options, q.answer, DATE_HINT);
    }
  }

  // ------------------------------------------- quiz buttons (older snapshot)

  datatype Template = Template(question: string, options: seq<string>, answer: nat)

  const TEMPLATES: seq<Template> := [
    Template("Which option is a fruit?", ["Apple", "Brick", "Chair", "Cloud"], 0),
    Template("Which animal says \"meow\"?", ["Cat", "Fish", "Snake", "Ant"], 0),
    Template("Which item can you drink?", ["Water", "Stone", "Paper", "Sand"], 0),
    Template("Which color is common for grass?", ["Green", "Purple", "Orange", "Black"], 0)
  ]

  datatype LabeledOption = LabeledOption(caption: string, originalIndex: nat)

  /** `template.options.map((label, originalIndex) => ({ label, originalIndex }))` */
  function Label(options: seq<string>): (r: seq<LabeledOption>)
    ensures |r| == |options|
    ensures forall i :: 0 <= i < |r| ==> r[i] == LabeledOption(options[i], i)
  {
    seq(|options|, i requires 0 <= i < |options| => LabeledOption(options[i], i))
  }

  /** The captions of labelled options, in their order. */
  function Captions(s: seq<LabeledOption>): (r: seq<string>)
    ensures |r| == |s|
    ensures forall i :: 0 <= i < |s| ==> r[i] == s[i].caption
  {
    seq(|s|, i requires 0 <= i < |s| => s[i].caption)
  }

  /** Taking out the option at `j` takes one of its caption out of the captions. */
  lemma RemoveOption(t: seq<LabeledOption>, j: nat)
    requires j < |t|
    ensures multiset(t) == multiset(t[..j] + t[j + 1..]) + multiset{t[j]}
    ensures multiset(Captions(t)) == multiset(Captions(t[..j] + t[j + 1..])) + multiset{t[j].caption}
  {
    assert t == t[..j] + [t[j]] + t[j + 1..];
    var c := Captions(t);
    assert c == c[..j] + [c[j]] + c[j + 1..];
    assert Captions(t[..j] + t[j + 1..]) == c[..j] + c[j + 1..];
  }

  lemma RemoveFirst(s: seq<LabeledOption>)
    requires s != []
    ensures multiset(s) == multiset(s[1..]) + multiset{s[0]}
    ensures multiset(Captions(s)) == multiset(Captions(s[1..])) + multiset{s[0].caption}
  {
    assert s == [s[0]] + s[1..];
    var c := Captions(s);
    assert c == [c[0]] + c[1..];
    assert c[1..] == Captions(s[1..]);
  }

  /** Reordering labelled options reorders their captions: the same captions, as often. */
  lemma {:induction false} PermutedCaptions(s: seq<LabeledOption>, t: seq<LabeledOption>)
    requires multiset(s) == multiset(t)
    ensures multiset(Captions(s)) == multiset(Captions(t))
    decreases |s|
  {
    if s == [] {
      assert |t| == |multiset(t)| == 0;
    } else {
      var x := s[0];
      assert x in t by { assert x in multiset(s); }
      var j :| 0 <= j < |t| && t[j] == x;
      var rest := t[..j] + t[j + 1..];
      RemoveOption(t, j);
      RemoveFirst(s);
      assert multiset(s[1..]) == multiset(s) - multiset{x};
      assert multiset(rest) == multiset(t) - multiset{x};
      PermutedCaptions(s[1..], rest);
    }
  }

  /**
   * shuffle: Fisher-Yates on a copy. `draws[i]` is the randomInt(i + 1) drawn
   * when position i is swapped (i from the last position down to 1).
   */
  method Shuffle(items: seq<LabeledOption>, draws: seq<nat>) returns (next: seq<LabeledOption>)
    requires |draws| == |items|
    requires forall i :: 0 < i < |draws| ==> draws[i] <= i
    ensures multiset(next) == multiset(items)
    ensures |next| == |items|
  {
    var a := new LabeledOption[|items|](k requires 0 <= k < |items| => items[k]);
    assert a[..] == items;
    var i := a.Length - 1;
    while i > 0
      invariant -1 <= i < a.Length
      invariant multiset(a[..]) == multiset(items)
    {
      var j := draws[i];
      a[i], a[j] := a[j], a[i];
      i := i - 1;
    }
    next := a[..];
  }

  /** `findIndex`: the first position whose original index is `target`, or -1. */
  function FindIndex(options: seq<LabeledOption>, target: nat): (r: int)
    ensures -1 <= r < |options|
    ensures r == -1 <==> forall i :: 0 <= i < |options| ==> options[i].originalIndex != target
    ensures r >= 0 ==> options[r].originalIndex == target
    ensures forall i :: 0 <= i < r ==> options[i].originalIndex != target
  {
    if options == [] then -1
    else if options[0].originalIndex == target then 0
    else
      var r := FindIndex(options[1..], target);
      if r == -1 then -1 else r + 1
  }

  /** After any shuffle of the labelled options, the answer index points at the template's correct label. */
  lemma AnswerIndexFindsCorrectLabel(t: Template, shuffled: seq<LabeledOption>)
    requires t.answer < |t.options|
    requires multiset(shuffled) == multiset(Label(t.options))
    ensures 0 <= FindIndex(shuffled, t.answer) < |shuffled|
    ensures shuffled[FindIndex(shuffled, t.answer)].caption == t.options[t.answer]
  {
    var labelled := Label(t.options);
    var target := labelled[t.answer];
    assert target in multiset(labelled);
    assert target in shuffled;
    var k := FindIndex(shuffled, t.answer);
    assert shuffled[k] in multiset(labelled);
    assert shuffled[k] in labelled;
  }
}
