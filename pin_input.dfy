/**
 * The secure PIN entry component: a digit buffer bounded by the configured
 * length, fed by a virtual keypad, by a hidden text input and by the hardware
 * backspace key, that reports the PIN to its owner once the buffer is full.
 */
module SecurePinInput {
  import opened Common

  predicate IsDigit(c: char) {
    '0' <= c <= '9'
  }

  predicate AllDigits(s: string) {
    forall i :: 0 <= i < |s| ==> IsDigit(s[i])
  }

  function Min(a: int, b: int): int {
    if a <= b then a else b
  }

  // ---------------------------------------------------------------------------
  // The keypad
  // ---------------------------------------------------------------------------

  /** One entry of the keypad layout: a number key, the biometry key 'Y' or the erase key 'X'. */
  datatype KeypadButton = Number(n: int) | Biometry | Erase

  /** The keypad layout, row by row: 1 2 3 / 4 5 6 / 7 8 9 / Y 0 X. */
  const Buttons: seq<KeypadButton> :=
    [Number(1), Number(2), Number(3),
     Number(4), Number(5), Number(6),
     Number(7), Number(8), Number(9),
     Biometry, Number(0), Erase]

  function Flatten(rows: seq<seq<KeypadButton>>): seq<KeypadButton> {
    if rows == [] then [] else rows[0] + Flatten(rows[1..])
  }

  /** The rows of the keypad: one slice of (at most) three buttons for every
      index of the layout that is a multiple of three. */
  function KeypadRows(buttons: seq<KeypadButton>): (rows: seq<seq<KeypadButton>>)
    ensures Flatten(rows) == buttons
    ensures forall i :: 0 <= i < |rows| ==> 0 < |rows[i]| <= 3
    ensures forall i :: 0 <= i < |rows| - 1 ==> |rows[i]| == 3
    decreases |buttons|
  {
    if |buttons| <= 3 then
      (if buttons == [] then [] else [buttons])
    else
      var rest := KeypadRows(buttons[3..]);
      assert buttons == buttons[..3] + buttons[3..];
      [buttons[..3]] + rest
  }

  /** The value handed to onDigitInput: the 'Backspace' marker or a keypad number. */
  datatype PinKey = Backspace | Digit(n: int)

  /** Keys the keypad can hand to onDigitInput: Backspace and the numbers 0 to 9. */
  predicate KeyAccepted(key: PinKey) {
    key.Digit? ==> 0 <= key.n <= 9
  }

  /** What pressing a keypad button does. */
  datatype PadAction = Input(key: PinKey) | BiometryPress | NoAction

  function PressAction(b: KeypadButton, supportBiometric: bool): (a: PadAction)
    ensures a.Input? && a.key.Backspace? <==> b.Erase?
    ensures a.Input? && a.key.Digit? <==> b.Number?
    ensures b.Erase? ==> a == Input(Backspace)
    ensures b.Number? ==> a == Input(Digit(b.n))
    ensures a.BiometryPress? <==> b.Biometry? && supportBiometric
  {
    match b
    case Erase => Input(Backspace)
    case Biometry => if supportBiometric then BiometryPress else NoAction
    case Number(n) => Input(Digit(n))
  }

  /** The keypad has four rows of three keys. */
  lemma KeypadRowsShape()
    ensures |KeypadRows(Buttons)| == 4
    ensures forall i :: 0 <= i < 4 ==> |KeypadRows(Buttons)[i]| == 3
  {
    var b1 := Buttons[3..];
    var b2 := b1[3..];
    var b3 := b2[3..];
    assert |b3| == 3;
    assert KeypadRows(b3) == [b3];
    assert KeypadRows(b2) == [b2[..3]] + [b3];
    assert KeypadRows(b1) == [b1[..3]] + KeypadRows(b2);
  }

  /** Where number `n` sits in the layout. */
  function KeyPosition(n: int): nat
    requires 0 <= n <= 9
  {
    if n == 0 then 10 else n - 1
  }

  /** Every number 0..9 appears on exactly one key. */
  lemma KeypadNumbersOnce(n: int)
    requires 0 <= n <= 9
    ensures KeyPosition(n) < |Buttons| && Buttons[KeyPosition(n)] == Number(n)
    ensures forall i :: 0 <= i < |Buttons| && Buttons[i] == Number(n) ==> i == KeyPosition(n)
  {
    forall i | 0 <= i < |Buttons| && Buttons[i] == Number(n)
      ensures i == KeyPosition(n)
    {
      assert Buttons[i].n == if i == 10 then 0 else i + 1;
    }
  }

  /** Every key the layout hands to onDigitInput is one it accepts. */
  lemma KeypadKeysAccepted(supportBiometric: bool)
    ensures forall i :: 0 <= i < |Buttons| && PressAction(Buttons[i], supportBiometric).Input? ==>
      KeyAccepted(PressAction(Buttons[i], supportBiometric).key)
  {
  }

  // ---------------------------------------------------------------------------
  // Letter captions
  // ---------------------------------------------------------------------------

  /** `s.split(sep)`. */
  function Split(s: string, sep: char): (parts: seq<string>)
    ensures |parts| > 0
    ensures forall i :: 0 <= i < |parts| ==> sep !in parts[i]
  {
    if s == "" then [""]
    else
      var rest := Split(s[1..], sep);
      if s[0] == sep then [""] + rest
      else [[s[0]] + rest[0]] + rest[1..]
  }

  /** `parts.join(sep)`. */
  function Join(parts: seq<string>, sep: char): string
    requires |parts| > 0
  {
    if |parts| == 1 then parts[0] else parts[0] + [sep] + Join(parts[1..], sep)
  }

  lemma {:induction false} JoinConsChar(c: char, p: string, tail: seq<string>, sep: char)
    ensures Join([[c] + p] + tail, sep) == [c] + Join([p] + tail, sep)
  {
    if tail != [] {
      assert ([[c] + p] + tail)[1..] == tail;
      assert ([p] + tail)[1..] == tail;
    }
  }

  /** Joining the parts of a split gives back the string. */
  lemma {:induction false} JoinSplit(s: string, sep: char)
    ensures Join(Split(s, sep), sep) == s
  {
    if s != "" {
      var rest := Split(s[1..], sep);
      JoinSplit(s[1..], sep);
      if s[0] == sep {
        assert ([""] + rest)[1..] == rest;
      } else {
        assert rest == [rest[0]] + rest[1..];
        JoinConsChar(s[0], rest[0], rest[1..], sep);
      }
    }
  }

  lemma {:induction false} SplitPrefix(p: string, s: string, sep: char)
    requires sep !in p
    ensures Split(p + s, sep) == [p + Split(s, sep)[0]] + Split(s, sep)[1..]
  {
    if p != "" {
      assert (p + s)[1..] == p[1..] + s;
      assert (p + s)[0] == p[0];
      SplitPrefix(p[1..], s, sep);
      assert [p[0]] + (p[1..] + Split(s, sep)[0]) == p + Split(s, sep)[0];
    } else {
      assert p + s == s;
      assert p + Split(s, sep)[0] == Split(s, sep)[0];
      assert [p + Split(s, sep)[0]] + Split(s, sep)[1..] == Split(s, sep);
    }
  }

  /** Splitting a join of separator-free parts gives back the parts. */
  lemma {:induction false} SplitJoin(parts: seq<string>, sep: char)
    requires |parts| > 0
    requires forall i :: 0 <= i < |parts| ==> sep !in parts[i]
    ensures Split(Join(parts, sep), sep) == parts
  {
    if |parts| == 1 {
      SplitPrefix(parts[0], "", sep);
      assert parts[0] + "" == parts[0];
    } else {
      var tail := Join(parts[1..], sep);
      SplitJoin(parts[1..], sep);
      var sepTail := [sep] + tail;
      assert parts[0] + [sep] + tail == parts[0] + sepTail;
      assert sepTail[0] == sep && sepTail[1..] == tail;
      assert Split(sepTail, sep) == [""] + parts[1..];
      SplitPrefix(parts[0], sepTail, sep);
      assert parts[0] + "" == parts[0];
      assert parts == [parts[0]] + parts[1..];
    }
  }

  /** The caption under each number key. */
  const Alphabet := "ABC.DEF.GHI.JKL.MNO.PQRS.TUV.WXYZ"

  const LetterGroups: seq<string> := ["ABC", "DEF", "GHI", "JKL", "MNO", "PQRS", "TUV", "WXYZ"]

  lemma AlphabetGroups()
    ensures Split(Alphabet, '.') == LetterGroups
  {
    assert Join(LetterGroups, '.') == Alphabet;
    SplitJoin(LetterGroups, '.');
  }

  /** The letters printed under number key `n`. */
  function Alpha(n: int): (r: string)
    ensures 2 <= n <= 9 ==> r == LetterGroups[n - 2]
    ensures !(2 <= n <= 9) ==> r == ""
  {
    if 2 <= n <= 9 then
      AlphabetGroups();
      Split(Alphabet, '.')[n - 2]
    else ""
  }

  // ---------------------------------------------------------------------------
  // The digit buffer, as functions of the old buffer
  // ---------------------------------------------------------------------------

  /** The string form of a keypad number, as `digits + digit` produces it. */
  function DigitChar(n: int): (c: char)
    requires 0 <= n <= 9
    ensures IsDigit(c) && c as int - '0' as int == n
  {
    ('0' as int + n) as char
  }

  /** `s.split('')`, `pop()`, `join('')`: drop the last character, if any. */
  function Popped(s: string): (r: string)
    ensures |r| == if s == "" then 0 else |s| - 1
    ensures r <= s
  {
    if s == "" then s else s[..|s| - 1]
  }

  /** Popping undoes appending a character. */
  lemma PoppedUndoesAppend(s: string, c: char)
    ensures Popped(s + [c]) == s
  {
    assert (s + [c])[..|s|] == s;
  }

  /** `code.replace(/[^0-9]/g, '')`. */
  function CleanCode(code: string): (r: string)
    ensures AllDigits(r)
    ensures |r| <= |code|
  {
    if code == "" then ""
    else (if IsDigit(code[0]) then [code[0]] else "") + CleanCode(code[1..])
  }

  /** Cleaning leaves a string alone exactly when it already holds only digits. */
  lemma {:induction false} CleanCodeFixesDigitStrings(code: string)
    ensures CleanCode(code) == code <==> AllDigits(code)
  {
    if code != "" && AllDigits(code) {
      assert AllDigits(code[1..]) by {
        forall i | 0 <= i < |code[1..]| ensures IsDigit(code[1..][i]) {
          assert code[1..][i] == code[i + 1];
        }
      }
      CleanCodeFixesDigitStrings(code[1..]);
      assert code == [code[0]] + code[1..];
    }
  }

  /** Cleaning works character by character. */
  lemma {:induction false} CleanCodeAppend(a: string, b: string)
    ensures CleanCode(a + b) == CleanCode(a) + CleanCode(b)
  {
    if a == "" {
      assert a + b == b;
    } else {
      assert (a + b)[0] == a[0];
      assert (a + b)[1..] == a[1..] + b;
      CleanCodeAppend(a[1..], b);
    }
  }

  /** Cleaning keeps every digit (as many times as it occurs) and nothing else. */
  lemma {:induction false} CleanCodeCounts(code: string, c: char)
    ensures multiset(CleanCode(code))[c] == if IsDigit(c) then multiset(code)[c] else 0
  {
    if code != "" {
      CleanCodeCounts(code[1..], c);
      assert code == [code[0]] + code[1..];
      assert multiset(code) == multiset{code[0]} + multiset(code[1..]);
    }
  }

  /** What one handler call leaves behind: the new buffer and, when the buffer
      has just been filled, the PIN handed on to be reported. */
  datatype Step = Step(digits: string, finished: Option<string>)

  /** onDigitInput on buffer `digits`. */
  function DigitInput(digits: string, length: nat, key: PinKey): (r: Step)
    requires KeyAccepted(key)
    ensures |digits| <= length && AllDigits(digits) ==> |r.digits| <= length && AllDigits(r.digits)
    ensures key.Backspace? ==> r.digits == Popped(digits) && r.finished == None
    ensures key.Digit? && |digits| < length ==> r.digits == digits + [DigitChar(key.n)]
    ensures key.Digit? && |digits| >= length ==> r.digits == digits && r.finished == None
    ensures r.finished.Some? <==> key.Digit? && |digits| + 1 == length
    ensures r.finished.Some? ==> r.finished.value == r.digits && |r.digits| == length
  {
    match key
    case Backspace => Step(Popped(digits), None)
    case Digit(n) =>
      var newDigits := digits + [DigitChar(n)];
      Step(if |newDigits| <= length then newDigits else digits,
           if |newDigits| == length then Some(newDigits) else None)
  }

  /** handleEdit on buffer `digits` with the text input's new contents `code`. */
  function EditInput(digits: string, length: nat, code: string): (r: Step)
    ensures AllDigits(digits) ==> AllDigits(r.digits)
    ensures |digits| <= length ==> |r.digits| <= length
    ensures CleanCode(code) == "" ==> r == Step("", None)
    ensures |CleanCode(code)| > length ==> r == Step(digits, None)
    ensures 0 < |CleanCode(code)| <= length ==> r.digits == CleanCode(code)
    ensures r.finished.Some? <==> 0 < |CleanCode(code)| == length
    ensures r.finished.Some? ==> r.finished.value == r.digits
  {
    var cleanCode := CleanCode(code);
    if cleanCode != "" then
      Step(if |cleanCode| <= length then cleanCode else digits,
           if |cleanCode| == length then Some(cleanCode) else None)
    else
      Step("", None)
  }

  /** The keys that type `pin` on the keypad, one number per character. */
  function KeysOf(pin: string): (keys: seq<PinKey>)
    requires AllDigits(pin)
    ensures |keys| == |pin|
    ensures forall i {:trigger keys[i]} :: 0 <= i < |keys| ==>
      keys[i].Digit? && KeyAccepted(keys[i]) && DigitChar(keys[i].n) == pin[i]
  {
    if pin == "" then []
    else
      assert AllDigits(pin[1..]) by {
        forall i | 0 <= i < |pin[1..]| ensures IsDigit(pin[1..][i]) {
          assert pin[1..][i] == pin[i + 1];
        }
      }
      [Digit(pin[0] as int - '0' as int)] + KeysOf(pin[1..])
  }

  predicate AllAccepted(keys: seq<PinKey>) {
    forall i :: 0 <= i < |keys| ==> KeyAccepted(keys[i])
  }

  /** Feeds `keys` to onDigitInput one at a time: the final buffer and every PIN reported, in order. */
  function TypeKeys(digits: string, length: nat, keys: seq<PinKey>): (string, seq<string>)
    requires AllAccepted(keys)
    decreases |keys|
  {
    if keys == [] then (digits, [])
    else
      var s := DigitInput(digits, length, keys[0]);
      var rest := TypeKeys(s.digits, length, keys[1..]);
      (rest.0, (if s.finished.Some? then [s.finished.value] else []) + rest.1)
  }

  /** Typing the first digit of `rest` appends it, and reports the buffer when that fills it. */
  lemma TypeFirstDigit(typed: string, rest: string, length: nat)
    requires AllDigits(rest) && rest != "" && |typed| < length
    ensures AllDigits(rest[1..])
    ensures TypeKeys(typed, length, KeysOf(rest)) ==
      (TypeKeys(typed + [rest[0]], length, KeysOf(rest[1..])).0,
       (if |typed| + 1 == length then [typed + [rest[0]]] else []) +
       TypeKeys(typed + [rest[0]], length, KeysOf(rest[1..])).1)
  {
    var keys := KeysOf(rest);
    assert keys[0] == Digit(rest[0] as int - '0' as int);
    assert DigitChar(keys[0].n) == rest[0];
    assert keys[1..] == KeysOf(rest[1..]);
  }

  lemma AppendDigit(typed: string, rest: string)
    requires AllDigits(typed) && AllDigits(rest) && rest != ""
    ensures AllDigits(typed + [rest[0]])
  {
    assert IsDigit(rest[0]);
  }

  /** Typing the one digit that fills the buffer reports the full buffer. */
  lemma TypeLastDigit(typed: string, rest: string, length: nat)
    requires AllDigits(rest) && |rest| == 1 && |typed| + 1 == length
    ensures TypeKeys(typed, length, KeysOf(rest)) == (typed + rest, [typed + rest])
  {
    TypeFirstDigit(typed, rest, length);
    var next := typed + [rest[0]];
    assert next == typed + rest;
    assert KeysOf(rest[1..]) == [];
    assert TypeKeys(next, length, []) == (next, []);
    assert [next] + [] == [next];
  }

  /** Typing the remaining `rest` digits onto `typed`, when together they make
      exactly `length` digits, ends with the whole PIN in the buffer and reports
      it exactly once. */
  lemma {:induction false} TypingFillsThenReportsOnce(typed: string, rest: string, length: nat)
    requires AllDigits(typed) && AllDigits(rest)
    requires rest != "" && |typed| + |rest| == length
    ensures TypeKeys(typed, length, KeysOf(rest)) == (typed + rest, [typed + rest])
    decreases |rest|
  {
    TypeFirstDigit(typed, rest, length);
    var next := typed + [rest[0]];
    var after := TypeKeys(next, length, KeysOf(rest[1..]));
    if |rest| == 1 {
      TypeLastDigit(typed, rest, length);
    } else {
      AppendDigit(typed, rest);
      TypingFillsThenReportsOnce(next, rest[1..], length);
      assert next + rest[1..] == typed + rest;
      assert after == (typed + rest, [typed + rest]);
      assert |typed| + 1 != length;
      assert [] + after.1 == after.1;
    }
  }

  /** Typing a whole PIN of the configured length on an empty buffer reports it once. */
  lemma TypingAPin(pin: string, length: nat)
    requires AllDigits(pin) && |pin| == length > 0
    ensures TypeKeys("", length, KeysOf(pin)) == (pin, [pin])
  {
    TypingFillsThenReportsOnce("", pin, length);
    assert "" + pin == pin;
  }

  /** Once the buffer is full, further numbers change nothing and report nothing. */
  lemma {:induction false} FullBufferIgnoresNumbers(digits: string, length: nat, keys: seq<PinKey>)
    requires |digits| >= length
    requires forall i :: 0 <= i < |keys| ==> keys[i].Digit? && KeyAccepted(keys[i])
    ensures TypeKeys(digits, length, keys) == (digits, [])
  {
    if keys != [] {
      assert DigitInput(digits, length, keys[0]) == Step(digits, None);
      assert forall i :: 0 <= i < |keys[1..]| ==> keys[1..][i] == keys[i + 1];
      FullBufferIgnoresNumbers(digits, length, keys[1..]);
      var after := TypeKeys(digits, length, keys[1..]);
      assert TypeKeys(digits, length, keys) == (after.0, [] + after.1);
      assert [] + after.1 == after.1;
    }
  }

  // ---------------------------------------------------------------------------
  // The component
  // ---------------------------------------------------------------------------

  /** A report to onInputFinish; `clearLater` says that the component also
      scheduled clearInput (the clearOnFinish property). */
  datatype FinishEvent = FinishEvent(pin: string, clearLater: bool)

  function Report(finished: Option<string>, clearOnFinish: bool): Option<FinishEvent> {
    match finished
    case None => None
    case Some(pin) => Some(FinishEvent(pin, clearOnFinish))
  }

  class PinInput {
    const length: nat
    const clearOnFinish: bool
    var digits: string

    /** The buffer holds digits only and never more than `length` of them. */
    ghost predicate Valid()
      reads this
    {
      |digits| <= length && AllDigits(digits)
    }

    constructor (length: nat, clearOnFinish: bool)
      ensures Valid() && digits == ""
      ensures this.length == length && this.clearOnFinish == clearOnFinish
    {
      this.length := length;
      this.clearOnFinish := clearOnFinish;
      digits := "";
    }

    /** The component with its default properties. */
    constructor Default()
      ensures Valid() && digits == ""
      ensures length == 6 && !clearOnFinish
    {
      length := 6;
      clearOnFinish := false;
      digits := "";
    }

    method OnDigitInput(key: PinKey) returns (finished: Option<FinishEvent>)
      requires Valid() && KeyAccepted(key)
      modifies this
      ensures Valid()
      ensures digits == DigitInput(old(digits), length, key).digits
      ensures finished == Report(DigitInput(old(digits), length, key).finished, clearOnFinish)
    {
      if key.Backspace? {
        digits := Popped(digits);
        finished := None;
      } else {
        var newDigits := digits + [DigitChar(key.n)];
        if |newDigits| <= length {
          digits := newDigits;
        }
        finished := None;
        if |newDigits| == length {
          finished := Some(FinishEvent(newDigits, clearOnFinish));
        }
      }
    }

    method HandleEdit(code: string) returns (finished: Option<FinishEvent>)
      requires Valid()
      modifies this
      ensures Valid()
      ensures digits == EditInput(old(digits), length, code).digits
      ensures finished == Report(EditInput(old(digits), length, code).finished, clearOnFinish)
    {
      var cleanCode := CleanCode(code);
      finished := None;
      if cleanCode != "" {
        if |cleanCode| <= length {
          digits := cleanCode;
        }
        if |cleanCode| == length {
          finished := Some(FinishEvent(cleanCode, clearOnFinish));
        }
      } else {
        digits := "";
      }
    }

    /** The hardware key handler: only Backspace on Android changes the buffer. */
    method OnKeyPress(key: string, isAndroid: bool)
      requires Valid()
      modifies this
      ensures Valid()
      ensures key == "Backspace" && isAndroid ==> digits == Popped(old(digits))
      ensures !(key == "Backspace" && isAndroid) ==> digits == old(digits)
    {
      if key == "Backspace" && isAndroid {
        digits := Popped(digits);
      }
    }

    method ClearInput()
      requires Valid()
      modifies this
      ensures Valid() && digits == ""
    {
      digits := "";
    }

    /** The dots above the keypad: `length` of them, the first |digits| active. */
    method RenderDots() returns (dots: seq<bool>)
      ensures |dots| == length
      ensures forall i :: 0 <= i < length ==> dots[i] == (i < |digits|)
      ensures ActiveCount(dots) == Min(|digits|, length)
    {
      dots := [];
      for i := 0 to length
        invariant |dots| == i
        invariant forall j :: 0 <= j < i ==> dots[j] == (j < |digits|)
        invariant ActiveCount(dots) == Min(|digits|, i)
      {
        assert (dots + [i < |digits|])[..i] == dots;
        dots := dots + [i < |digits|];
      }
    }
  }

  /** The number of active dots. */
  function ActiveCount(dots: seq<bool>): nat {
    if dots == [] then 0
    else ActiveCount(dots[..|dots| - 1]) + (if dots[|dots| - 1] then 1 else 0)
  }
}
