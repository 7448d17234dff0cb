/** The amusement-park transfer equations: printing, parsing, their arithmetic contract, and the answer choices. */
module ParkEquation {
  import opened Common

  datatype Operation = Addition | Subtraction | Multiplication | Division

  datatype Equation = Equation(left: nat, operation: Operation, right: nat, result: nat)
  {
    /** `ArithmeticValidationContract`: the result is the true one, and a division is exact. */
    predicate Consistent() {
      match operation
      case Addition => result == left + right
      case Subtraction => result == left - right
      case Multiplication => result == left * right
      case Division => right != 0 && left % right == 0 && result == left / right
    }
  }

  // ----- numbers -----

  predicate IsDigit(c: char) { '0' <= c <= '9' }

  function DigitChar(d: nat): (c: char)
    requires d <= 9
    ensures IsDigit(c)
  {
    "0123456789"[d]
  }

  function DigitValue(c: char): (d: nat)
    requires IsDigit(c)
    ensures d <= 9
  {
    c as nat - '0' as nat
  }

  /** Decimal notation of a natural number, as `str` gives it. */
  function Show(n: nat): (s: string)
    ensures s != "" && forall c | c in s :: IsDigit(c)
  {
    if n < 10 then [DigitChar(n)] else Show(n / 10) + [DigitChar(n % 10)]
  }

  function ValueOf(digits: string): nat
    requires forall c | c in digits :: IsDigit(c)
  {
    if digits == "" then 0 else 10 * ValueOf(digits[..|digits| - 1]) + DigitValue(digits[|digits| - 1])
  }

  lemma {:induction false} ShowsItsValue(n: nat)
    ensures ValueOf(Show(n)) == n
  {
    if n >= 10 {
      ShowsItsValue(n / 10);
      var s := Show(n);
      assert s[..|s| - 1] == Show(n / 10) && s[|s| - 1] == DigitChar(n % 10);
      assert DigitValue(DigitChar(n % 10)) == n % 10;
    }
  }

  /** A character of a number field: digits and grouping commas. */
  predicate InField(c: char) { IsDigit(c) || c == ',' }

  function WithoutCommas(s: string): (r: string)
    requires forall c | c in s :: InField(c)
    ensures forall c | c in r :: IsDigit(c)
  {
    if s == "" then ""
    else
      assert s == [s[0]] + s[1..] && s[0] in s;
      var rest := WithoutCommas(s[1..]);
      if s[0] == ',' then rest
      else
        assert InField(s[0]);
        [s[0]] + rest
  }

  /** `int(field.replace(",", ""))`; a field of commas only has no value. */
  function FieldValue(s: string): Option<nat>
    requires forall c | c in s :: InField(c)
  {
    var digits := WithoutCommas(s);
    if digits == "" then None else Some(ValueOf(digits))
  }

  lemma {:induction false} DigitsHaveNoCommas(s: string)
    requires forall c | c in s :: IsDigit(c)
    ensures WithoutCommas(s) == s
  {
    if s != "" {
      DigitsHaveNoCommas(s[1..]);
      assert s == [s[0]] + s[1..];
      assert s[0] in s;
    }
  }

  // ----- parsing -----

  predicate IsSpace(c: char) { c in {' ', '\t', '\n', '\r'} }

  function OperationOf(c: char): Option<Operation> {
    match c
    case '+' => Some(Addition)
    case '-' => Some(Subtraction)
    case '×' => Some(Multiplication)
    case 'x' => Some(Multiplication)
    case 'X' => Some(Multiplication)
    case '*' => Some(Multiplication)
    case '÷' => Some(Division)
    case '/' => Some(Division)
    case _ => None
  }

  function SkipSpaces(s: string): (r: string)
    ensures |r| <= |s| && (r != "" ==> !IsSpace(r[0]))
  {
    if s != "" && IsSpace(s[0]) then SkipSpaces(s[1..]) else s
  }

  /** The longest leading number field, and the rest. */
  function TakeField(s: string): (r: (string, string))
    ensures s == r.0 + r.1 && forall c | c in r.0 :: InField(c)
  {
    if s != "" && InField(s[0]) then
      var (field, rest) := TakeField(s[1..]);
      ([s[0]] + field, rest)
    else ("", s)
  }

  /** `_parse_park_transfer_equation`; `None` where it raises. */
  function Parse(s: string): Option<Equation> {
    var (a, s1) := TakeField(SkipSpaces(s));
    var t1 := SkipSpaces(s1);
    if a == "" || t1 == "" || OperationOf(t1[0]).None? then None
    else
      var (b, s2) := TakeField(SkipSpaces(t1[1..]));
      var t2 := SkipSpaces(s2);
      if b == "" || t2 == "" || t2[0] != '=' then None
      else
        var (c, s3) := TakeField(SkipSpaces(t2[1..]));
        if c == "" || SkipSpaces(s3) != "" then None
        else Judge(FieldValue(a), OperationOf(t1[0]).value, FieldValue(b), FieldValue(c))
  }

  function Judge(a: Option<nat>, op: Operation, b: Option<nat>, c: Option<nat>): Option<Equation> {
    match (a, b, c)
    case (Some(x), Some(y), Some(z)) =>
      var e := Equation(x, op, y, z);
      if e.Consistent() then Some(e) else None
    case _ => None
  }

  predicate AllSpaces(s: string) { forall c | c in s :: IsSpace(c) }

  predicate AllField(s: string) { s != "" && forall c | c in s :: InField(c) }

  lemma {:induction false} SkipsAll(spaces: string, s: string)
    requires AllSpaces(spaces) && (s == "" || !IsSpace(s[0]))
    ensures SkipSpaces(spaces + s) == s
  {
    if spaces == "" {
      assert spaces + s == s;
    } else {
      assert spaces[0] in spaces && (spaces + s)[1..] == spaces[1..] + s;
      SkipsAll(spaces[1..], s);
    }
  }

  lemma {:induction false} TakesAll(field: string, s: string)
    requires (forall c | c in field :: InField(c)) && (s == "" || !InField(s[0]))
    ensures TakeField(field + s) == (field, s)
  {
    if field == "" {
      assert field + s == s;
    } else {
      assert field[0] in field && (field + s)[1..] == field[1..] + s;
      TakesAll(field[1..], s);
      assert field == [field[0]] + field[1..];
    }
  }

  /** Three number fields, an operation sign and the equals sign, with any spaces around them, parse to what the fields
      say, whatever the spaces and commas are. */
  lemma SpacedEquation(g0: string, a: string, g1: string, sign: char, g2: string, b: string, g3: string, g4: string,
      c: string, g5: string)
    requires AllField(a) && AllField(b) && AllField(c) && OperationOf(sign).Some?
    requires AllSpaces(g0) && AllSpaces(g1) && AllSpaces(g2) && AllSpaces(g3) && AllSpaces(g4) && AllSpaces(g5)
    ensures Parse(g0 + (a + (g1 + ([sign] + (g2 + (b + (g3 + (['='] + (g4 + (c + g5))))))))))
         == Judge(FieldValue(a), OperationOf(sign).value, FieldValue(b), FieldValue(c))
  {
    hide FieldValue, Judge;
    var r5 := c + g5;
    var r4 := ['='] + (g4 + r5);
    var r3 := b + (g3 + r4);
    var r2 := [sign] + (g2 + r3);
    var r1 := a + (g1 + r2);
    assert a[0] in a && b[0] in b && c[0] in c;
    SkipsAll(g0, r1);
    FieldThenSpaces(a, g1, r2);
    assert r2[1..] == g2 + r3;
    SkipsAll(g2, r3);
    FieldThenSpaces(b, g3, r4);
    assert r4[1..] == g4 + r5;
    SkipsAll(g4, r5);
    FieldThenEnd(c, g5);
  }

  lemma FieldThenSpaces(field: string, spaces: string, rest: string)
    requires AllField(field) && AllSpaces(spaces) && rest != "" && !IsSpace(rest[0]) && !InField(rest[0])
    ensures TakeField(field + (spaces + rest)) == (field, spaces + rest) && SkipSpaces(spaces + rest) == rest
  {
    assert spaces != "" ==> spaces[0] in spaces;
    TakesAll(field, spaces + rest);
    SkipsAll(spaces, rest);
  }

  lemma FieldThenEnd(field: string, spaces: string)
    requires AllField(field) && AllSpaces(spaces)
    ensures TakeField(field + spaces) == (field, spaces) && SkipSpaces(spaces) == ""
  {
    assert spaces != "" ==> spaces[0] in spaces;
    TakesAll(field, spaces);
    SkipsAll(spaces, "");
    assert spaces + "" == spaces;
  }

  // ----- the printed equations -----

  /** The scenarios print multiplications and divisions only. */
  function Sign(op: Operation): (c: char)
    ensures OperationOf(c) == Some(op)
  {
    match op
    case Addition => '+'
    case Subtraction => '-'
    case Multiplication => '×'
    case Division => '÷'
  }

  function Print(e: Equation): string {
    Show(e.left) + [Sign(e.operation)] + Show(e.right) + "=" + Show(e.result)
  }

  lemma ShownField(n: nat)
    ensures AllField(Show(n)) && FieldValue(Show(n)) == Some(n)
  {
    DigitsHaveNoCommas(Show(n));
    ShowsItsValue(n);
  }

  /** A printed equation parses back to itself iff it is true, and is refused otherwise. */
  lemma PrintedEquationParses(e: Equation)
    ensures Parse(Print(e)) == if e.Consistent() then Some(e) else None
  {
    hide Parse, FieldValue;
    ShownField(e.left);
    ShownField(e.right);
    ShownField(e.result);
    var a, b, c, sign := Show(e.left), Show(e.right), Show(e.result), Sign(e.operation);
    SpacedEquation("", a, "", sign, "", b, "", "", c, "");
    assert Print(e) == "" + (a + ("" + ([sign] + ("" + (b + ("" + (['='] + ("" + (c + "")))))))));
  }

  /** What the scenarios print is always read back: a product, or an exact quotient. */
  lemma ProductsAndQuotientsRoundTrip(a: nat, b: nat, c: nat)
    requires c == a * b
    ensures Parse(Print(Equation(a, Multiplication, b, c))) == Some(Equation(a, Multiplication, b, c))
    ensures b != 0 ==> Parse(Print(Equation(c, Division, b, a))) == Some(Equation(c, Division, b, a))
  {
    hide Parse, Print;
    PrintedEquationParses(Equation(a, Multiplication, b, c));
    if b != 0 {
      ExactQuotient(a, b, c);
      PrintedEquationParses(Equation(c, Division, b, a));
    }
  }

  lemma ExactQuotient(a: nat, b: nat, c: nat)
    requires b != 0 && c == a * b
    ensures c % b == 0 && c / b == a
  {
    var q, r := c / b, c % b;
    assert c == b * q + r && 0 <= r < b;
    Distributes(b, a, q);
    assert b * (a - q) == r;
    if a > q {
      AtLeastOneTime(b, a - q);
    } else if a < q {
      AtLeastOneTime(b, q - a);
      Distributes(b, q, a);
    }
  }

  lemma Distributes(b: int, x: int, y: int)
    ensures b * (x - y) == b * x - b * y
  {}

  lemma AtLeastOneTime(b: nat, k: nat)
    requires k >= 1
    ensures b * k >= b
  {}

  // ----- the answer choices -----

  datatype ChoiceError = TooFewDistractors

  /** The offered values in order; choosing one answers with it. */
  datatype Choices = Choices(offered: seq<int>, effects: map<int, int>)

  /** Python's floor division by five. */
  function FloorFifth(n: int): int { n / 5 }

  function Min(a: int, b: int): int { if a < b then a else b }

  function Max(a: int, b: int): int { if a < b then b else a }

  function Step(answer: int, money: bool): int {
    if money then Max(100, Min(1000, if FloorFifth(answer) == 0 then 100 else FloorFifth(answer))) else 1
  }

  function DefaultDistractors(answer: int, money: bool): seq<int> {
    [Max(0, answer - Step(answer, money)), answer + Step(answer, money)]
  }

  function Usable(answer: int, values: seq<int>): (r: seq<int>)
    ensures forall v :: v in r <==> v in values && v >= 0 && v != answer
  {
    if values == [] then []
    else
      assert values == [values[0]] + values[1..];
      var rest := Usable(answer, values[1..]);
      if values[0] >= 0 && values[0] != answer then [values[0]] + rest else rest
  }

  function Insert(v: int, sorted: seq<int>): (r: seq<int>)
    ensures multiset(r) == multiset(sorted) + multiset{v}
  {
    if sorted == [] || v <= sorted[0] then [v] + sorted
    else
      assert sorted == [sorted[0]] + sorted[1..];
      [sorted[0]] + Insert(v, sorted[1..])
  }

  function Sort(values: seq<int>): (r: seq<int>)
    ensures multiset(r) == multiset(values)
  {
    if values == [] then []
    else
      assert values == [values[0]] + values[1..];
      Insert(values[0], Sort(values[1..]))
  }

  /** `_park_number_choices` */
  function NumberChoices(answer: int, money: bool, distractors: Option<seq<int>>): Result<Choices, ChoiceError> {
    var candidates := if distractors.Some? then distractors.value else DefaultDistractors(answer, money);
    var reviewed := Dedup(Usable(answer, candidates));
    if |reviewed| < 2 then Err(TooFewDistractors)
    else
      var values := [answer, reviewed[0], reviewed[1]];
      Ok(Choices(Sort(values), map v | v in values :: v))
  }

  lemma InsertOne(a: int, b: int)
    ensures Insert(a, []) == [a]
    ensures Insert(a, [b]) == if a <= b then [a, b] else [b, a]
  {}

  lemma InsertTwo(a: int, b: int, c: int)
    ensures Insert(a, [b, c]) == if a <= b then [a, b, c] else if a <= c then [b, a, c] else [b, c, a]
  {
    assert [b, c][1..] == [c];
    InsertOne(a, c);
  }

  lemma SortsThree(a: int, b: int, c: int)
    ensures Sort([a, b, c]) == Insert(a, if b <= c then [b, c] else [c, b])
  {
    assert [a, b, c][1..] == [b, c] && [b, c][1..] == [c] && [c][1..] == [];
    InsertOne(c, c);
    InsertOne(b, c);
    hide Insert;
    assert Sort([c]) == [c];
  }

  lemma SortedThree(a: int, b: int, c: int)
    requires a != b && b != c && a != c
    ensures var s := Sort([a, b, c]); |s| == 3 && s[0] < s[1] < s[2] && Elements(s) == {a, b, c}
  {
    hide Sort, Insert;
    SortsThree(a, b, c);
    var s := Sort([a, b, c]);
    if b <= c {
      InsertTwo(a, b, c);
    } else {
      InsertTwo(a, c, b);
    }
    assert |s| == 3 && s[0] < s[1] < s[2] && {s[0], s[1], s[2]} == {a, b, c};
    assert s == [s[0], s[1], s[2]];
  }

  lemma ReviewedAreDistinct(answer: int, values: seq<int>)
    ensures var r := Dedup(Usable(answer, values)); |r| >= 2 ==> r[0] != answer && r[1] != answer && r[0] != r[1]
  {
    var r := Dedup(Usable(answer, values));
    forall v | v in r ensures v != answer {
      assert v in Elements(r) && v in Elements(Usable(answer, values));
    }
    assert |r| >= 2 ==> r[0] in r && r[1] in r;
  }

  /** Three distinct values in ascending order, each with its own effect, and exactly one of them the answer. */
  ghost predicate Good(c: Choices, answer: int) {
    && |c.offered| == 3 && c.offered[0] < c.offered[1] < c.offered[2]
    && c.effects.Keys == Elements(c.offered)
    && answer in c.offered && forall v | v in c.offered :: c.effects[v] == answer <==> v == answer
  }

  /** Whatever the distractors, the choices are good whenever they are built. */
  lemma ChoicesAreGood(answer: int, money: bool, distractors: Option<seq<int>>)
    requires NumberChoices(answer, money, distractors).Ok?
    ensures Good(NumberChoices(answer, money, distractors).value, answer)
  {
    hide Dedup, Usable, Sort, DefaultDistractors;
    var candidates := if distractors.Some? then distractors.value else DefaultDistractors(answer, money);
    var r := Dedup(Usable(answer, candidates));
    ReviewedAreDistinct(answer, candidates);
    SortedThree(answer, r[0], r[1]);
    assert answer in Elements(Sort([answer, r[0], r[1]]));
    assert forall v | v in Sort([answer, r[0], r[1]]) :: v in Elements(Sort([answer, r[0], r[1]]));
  }

  /** Two candidates make enough distractors iff both are usable and they differ. */
  lemma EnoughOfTwo(answer: int, x: int, y: int)
    ensures |Dedup(Usable(answer, [x, y]))| >= 2 <==> x >= 0 && y >= 0 && x != answer && y != answer && x != y
  {
    var usable := Usable(answer, [x, y]);
    var r := Dedup(usable);
    UniqueCardinality(r);
    assert forall v :: v in usable <==> v in [x, y] && v >= 0 && v != answer;
    hide Dedup, Usable;
    if x >= 0 && y >= 0 && x != answer && y != answer && x != y {
      assert Elements(usable) == {x, y};
    } else {
      var one := if x >= 0 && x != answer then x else y;
      assert Elements(r) <= {one};
      SubsetCardinality(Elements(r), {one});
    }
  }

  /** Two distinct usable candidates among others are enough. */
  lemma EnoughOfMany(answer: int, values: seq<int>, x: int, y: int)
    requires x in values && y in values && x != y && x >= 0 && y >= 0 && x != answer && y != answer
    ensures |Dedup(Usable(answer, values))| >= 2
  {
    hide Dedup, Usable;
    var usable := Usable(answer, values);
    var r := Dedup(usable);
    assert x in usable && y in usable && x in Elements(r) && y in Elements(r);
    UniqueCardinality(r);
    SubsetCardinality({x, y}, Elements(r));
  }

  // ----- the choices of a park task -----

  datatype Stage = Ticket | SnackSplit | PassBreakEven

  predicate InMoney(stage: Stage) { stage != PassBreakEven }

  function ExpectedOperation(stage: Stage): Operation {
    if stage == Ticket then Multiplication else Division
  }

  /** The distractors each stage passes to the builder, for an answer reached from the operand `left`. */
  function Distractors(stage: Stage, left: nat, answer: nat): seq<int> {
    match stage
    case Ticket => [left, answer + left]
    case SnackSplit => [left, Max(1000, answer - 1000), answer + 1000, answer + 2000]
    case PassBreakEven => [answer - 1, answer + 1]
  }

  function AnswerChoices(stage: Stage, left: nat, answer: nat): Result<Choices, ChoiceError> {
    NumberChoices(answer, InMoney(stage), Some(Distractors(stage, left, answer)))
  }

  function BenefitChoices(benefit: nat): Result<Choices, ChoiceError> {
    NumberChoices(benefit, false, Some([benefit - 1, benefit + 1]))
  }

  /** Exactly when a stage has choices: a ticket task needs a price, an answer and the two to differ; sharing always has
      them; the break-even stage needs at least one ride. */
  predicate Offerable(stage: Stage, left: nat, answer: nat) {
    match stage
    case Ticket => left >= 1 && answer >= 1 && left != answer
    case SnackSplit => true
    case PassBreakEven => answer >= 1
  }

  lemma AnswerChoicesIff(stage: Stage, left: nat, answer: nat)
    ensures AnswerChoices(stage, left, answer).Ok? <==> Offerable(stage, left, answer)
  {
    hide Dedup, Usable, Sort;
    match stage
    case Ticket => EnoughOfTwo(answer, left, answer + left);
    case SnackSplit => EnoughOfMany(answer, Distractors(stage, left, answer), answer + 1000, answer + 2000);
    case PassBreakEven => EnoughOfTwo(answer, answer - 1, answer + 1);
  }

  lemma BenefitChoicesIff(benefit: nat)
    ensures BenefitChoices(benefit).Ok? <==> benefit >= 1
  {
    hide Dedup, Usable, Sort;
    EnoughOfTwo(benefit, benefit - 1, benefit + 1);
  }

  datatype TransferError = BadEquation | WrongOperation | NoChoices(error: ChoiceError)

  datatype TransferTask = TransferTask(equation: Equation, answers: Choices, benefits: Option<Choices>)

  /** `_park_transfer_task` as far as equation and choices go. */
  function Transfer(stage: Stage, text: string): Result<TransferTask, TransferError> {
    match Parse(text)
    case None => Err(BadEquation)
    case Some(e) =>
      if e.operation != ExpectedOperation(stage) then Err(WrongOperation)
      else
        match AnswerChoices(stage, e.left, e.result)
        case Err(error) => Err(NoChoices(error))
        case Ok(answers) =>
          if stage != PassBreakEven then Ok(TransferTask(e, answers, None))
          else
            match BenefitChoices(e.result + 1)
            case Err(error) => Err(NoChoices(error))
            case Ok(benefits) => Ok(TransferTask(e, answers, Some(benefits)))
  }

  /** A transfer task can be built from an equation iff the equation parses, is of the stage's kind, and is neither a
      product with a factor that hides the answer among its distractors nor a break-even of no ride. */
  lemma TransferWorksIff(stage: Stage, text: string)
    ensures Transfer(stage, text).Ok? <==>
            && Parse(text).Some?
            && var e := Parse(text).value;
               e.operation == ExpectedOperation(stage) && Offerable(stage, e.left, e.result)
  {
    hide Parse, AnswerChoices, BenefitChoices, Offerable;
    if Parse(text).Some? {
      var e := Parse(text).value;
      AnswerChoicesIff(stage, e.left, e.result);
      BenefitChoicesIff(e.result + 1);
    }
  }

  lemma ProductIsOfferable(a: nat, b: nat)
    ensures Offerable(Ticket, a, a * b) <==> a >= 1 && b >= 2
  {
    if b == 1 {
      assert a * b == a;
    } else if b >= 2 && a >= 1 {
      Distributes(a, b, 1);
      AtLeastOneTime(a, b - 1);
    }
  }

  /** From the operands to the screen, for all naturals: a printed product gives a ticket task iff there is a price and
      more than one person; a printed exact quotient always gives a sharing task, and a break-even task iff it is at
      least one. */
  lemma PrintedTasksWorkIff(a: nat, b: nat, c: nat)
    requires c == a * b
    ensures Transfer(Ticket, Print(Equation(a, Multiplication, b, c))).Ok? <==> a >= 1 && b >= 2
    ensures b != 0 ==> Transfer(SnackSplit, Print(Equation(c, Division, b, a))).Ok?
    ensures b != 0 ==> (Transfer(PassBreakEven, Print(Equation(c, Division, b, a))).Ok? <==> a >= 1)
  {
    hide Parse, Print, Transfer;
    ProductsAndQuotientsRoundTrip(a, b, c);
    TransferWorksIff(Ticket, Print(Equation(a, Multiplication, b, c)));
    TransferWorksIff(SnackSplit, Print(Equation(c, Division, b, a)));
    TransferWorksIff(PassBreakEven, Print(Equation(c, Division, b, a)));
    ProductIsOfferable(a, b);
  }

  /** Whenever a transfer task is built, its answer choices contain the result of its own equation once, and the
      break-even stage's benefit choices the first ride after it once. */
  lemma TransferChoicesAreGood(stage: Stage, text: string)
    requires Transfer(stage, text).Ok?
    ensures var task := Transfer(stage, text).value;
            && Parse(text) == Some(task.equation) && task.equation.Consistent()
            && Good(task.answers, task.equation.result)
            && (task.benefits.Some? <==> stage == PassBreakEven)
            && (task.benefits.Some? ==> Good(task.benefits.value, task.equation.result + 1))
  {
    ParsedIsConsistent(text);
    hide Parse, NumberChoices, Distractors, Equation.Consistent;
    var e := Parse(text).value;
    ChoicesAreGood(e.result, InMoney(stage), Some(Distractors(stage, e.left, e.result)));
    if stage == PassBreakEven {
      var n: nat := e.result + 1;
      ChoicesAreGood(n, false, Some([n - 1, n + 1]));
    }
  }

  lemma ParsedIsConsistent(text: string)
    ensures Parse(text).Some? ==> Parse(text).value.Consistent()
  {
    hide TakeField, SkipSpaces, FieldValue;
  }
}
