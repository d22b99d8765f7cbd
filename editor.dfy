/**
 * The QBasic-style line editor (`get_input`) and the start-up questions
 * that use it (`get_inputs`).  The keyboard is a sequence of key presses;
 * a key that carries no character (an arrow, a modifier) is `Silent`.
 */
module Editor {
  import Play

  datatype Key = Close | Return | Backspace | Escape | Silent | Typed(c: char)

  /** Where the editor is after some keys: an answer, a cancel (Escape or closing the window), or still editing. */
  datatype Entry = Entered(text: string) | Cancelled | Editing(text: string)

  /** The answers to the four start-up questions, gravity kept as the text typed. */
  datatype Inputs =
    | Ready(player1: string, player2: string, numGames: nat, gravity: string)
    | Aborted
    | Pending

  const MaxLength: int := 20
  const NameLength: int := 10
  const DefaultGames: nat := 3

  predicate Numeral(c: char) { Play.IsDigit(c) || c == '.' }

  /** str.isprintable for the ASCII range: space to tilde. */
  predicate Printable(c: char) { ' ' <= c <= '~' }

  /** Whether a typed character is added to the text. */
  predicate Accepts(numeric: bool, text: string, c: char) {
    if numeric then Numeral(c) else Printable(c) && |text| < MaxLength
  }

  predicate Stop(k: Key) { k == Close || k == Return || k == Escape }

  /** The text with its last character removed; the empty text stays empty. */
  function DropLast(text: string): (t: string)
    ensures |text| > 0 ==> t + [text[|text| - 1]] == text
    ensures |text| == 0 ==> t == text
  {
    if |text| == 0 then text else text[..|text| - 1]
  }

  /** What the editor does with the keys, starting from the given text. */
  function Edit(keys: seq<Key>, text: string, default: string, numeric: bool): Entry {
    if |keys| == 0 then Editing(text)
    else
      match keys[0]
      case Close => Cancelled
      case Escape => Cancelled
      case Return => Entered(if |text| == 0 then default else text)
      case Backspace => Edit(keys[1..], DropLast(text), default, numeric)
      case Silent => Edit(keys[1..], text, default, numeric)
      case Typed(c) => Edit(keys[1..], if Accepts(numeric, text, c) then text + [c] else text, default, numeric)
  }

  /** The shape every text the editor builds has: numerals only, or at most 20 printable characters. */
  predicate Shaped(numeric: bool, text: string) {
    if numeric then forall k :: 0 <= k < |text| ==> Numeral(text[k])
    else |text| <= MaxLength && forall k :: 0 <= k < |text| ==> Printable(text[k])
  }

  // ---------------------------------------------------------------------
  // Lemmas

  /** The answer is the default for an empty line and otherwise a text of the editor's shape. */
  lemma {:induction false} EditShaped(keys: seq<Key>, text: string, default: string, numeric: bool)
    requires Shaped(numeric, text)
    ensures Edit(keys, text, default, numeric).Entered? ==>
      var t := Edit(keys, text, default, numeric).text;
      t == default || (|t| > 0 && Shaped(numeric, t))
    ensures Edit(keys, text, default, numeric).Editing? ==> Shaped(numeric, Edit(keys, text, default, numeric).text)
  {
    if |keys| > 0 {
      match keys[0]
      case Close =>
      case Escape =>
      case Return =>
      case Backspace =>
        EditShaped(keys[1..], DropLast(text), default, numeric);
      case Silent =>
        EditShaped(keys[1..], text, default, numeric);
      case Typed(c) =>
        var next := if Accepts(numeric, text, c) then text + [c] else text;
        assert Shaped(numeric, next) by {
          if Accepts(numeric, text, c) {
            assert forall k :: 0 <= k < |text| ==> next[k] == text[k];
          }
        }
        EditShaped(keys[1..], next, default, numeric);
    }
  }

  /** Some Return comes before any Escape or close. */
  predicate ReturnFirst(keys: seq<Key>) {
    exists k :: 0 <= k < |keys| && keys[k] == Return && forall j :: 0 <= j < k ==> !Stop(keys[j])
  }

  /** A key that neither answers nor cancels does not change whether a Return comes first. */
  lemma ReturnFirstTail(keys: seq<Key>)
    requires |keys| > 0 && !Stop(keys[0])
    ensures ReturnFirst(keys) == ReturnFirst(keys[1..])
  {
    var r := keys[1..];
    if ReturnFirst(r) {
      var k :| 0 <= k < |r| && r[k] == Return && forall j :: 0 <= j < k ==> !Stop(r[j]);
      assert keys[k + 1] == Return;
      assert forall j :: 0 <= j < k + 1 ==> !Stop(keys[j]) by {
        forall j | 0 <= j < k + 1
          ensures !Stop(keys[j])
        {
          if j > 0 {
            assert keys[j] == r[j - 1];
          }
        }
      }
    }
    if ReturnFirst(keys) {
      var k :| 0 <= k < |keys| && keys[k] == Return && forall j :: 0 <= j < k ==> !Stop(keys[j]);
      assert k > 0 && r[k - 1] == Return;
      assert forall j :: 0 <= j < k - 1 ==> !Stop(r[j]) by {
        forall j | 0 <= j < k - 1
          ensures !Stop(r[j])
        {
          assert r[j] == keys[j + 1];
        }
      }
    }
  }

  /** An answer is given exactly when a Return comes before any Escape or close. */
  lemma {:induction false} EnteredIff(keys: seq<Key>, text: string, default: string, numeric: bool)
    ensures Edit(keys, text, default, numeric).Entered? <==> ReturnFirst(keys)
  {
    if |keys| > 0 {
      if !Stop(keys[0]) {
        var next := match keys[0]
          case Backspace => DropLast(text)
          case Typed(c) => if Accepts(numeric, text, c) then text + [c] else text
          case _ => text;
        assert Edit(keys, text, default, numeric) == Edit(keys[1..], next, default, numeric);
        EnteredIff(keys[1..], next, default, numeric);
        ReturnFirstTail(keys);
      } else if keys[0] == Return {
        assert keys[0] == Return;
      }
    }
  }

  /** Backspace undoes the character just typed. */
  lemma EraseTyped(keys: seq<Key>, text: string, c: char, default: string, numeric: bool)
    requires Accepts(numeric, text, c)
    ensures Edit([Typed(c), Backspace] + keys, text, default, numeric) == Edit(keys, text, default, numeric)
  {
    var ks := [Typed(c), Backspace] + keys;
    assert ks[1..] == [Backspace] + keys;
    assert ks[1..][1..] == keys;
    assert (text + [c])[..|text|] == text;
  }

  // ---------------------------------------------------------------------
  // The editor loop as the source runs it

  /** get_input: keys are taken one by one until Return, Escape or a close. */
  method GetInput(keys: seq<Key>, default: string, numeric: bool) returns (e: Entry)
    ensures e == Edit(keys, "", default, numeric)
  {
    var text := "";
    var n := 0;
    while n < |keys|
      invariant 0 <= n <= |keys|
      invariant Edit(keys[n..], text, default, numeric) == Edit(keys, "", default, numeric)
    {
      assert keys[n..][1..] == keys[n + 1..];
      var key := keys[n];
      if key == Close || key == Escape {
        return Cancelled;
      }
      if key == Return {
        return Entered(if text == "" then default else text);
      }
      if key == Backspace {
        text := DropLast(text);
      } else if key.Typed? {
        var ch := key.c;
        if numeric {
          if Numeral(ch) {
            text := text + [ch];
          }
        } else {
          if Printable(ch) && |text| < MaxLength {
            text := text + [ch];
          }
        }
      }
      n := n + 1;
    }
    return Editing(text);
  }

  /** A player's name is the answer cut to 10 characters. */
  function Name(answer: string): (name: string)
    ensures |name| == if |answer| < NameLength then |answer| else NameLength
    ensures name <= answer
  {
    if |answer| < NameLength then answer else answer[..NameLength]
  }

  predicate AllDigits(s: string) { forall k :: 0 <= k < |s| ==> Play.IsDigit(s[k]) }

  /**
   * max(1, int(answer)) for an answer of the numeric editor, or 3 when
   * int() raises: on an empty answer or one holding a '.'.
   */
  function NumGames(answer: string): (n: nat)
    requires Shaped(true, answer)
    ensures n >= 1
    ensures |answer| > 0 && AllDigits(answer) ==> n == if Play.DigitsValue(answer) < 1 then 1 else Play.DigitsValue(answer)
    ensures !(|answer| > 0 && AllDigits(answer)) ==> n == DefaultGames
  {
    if |answer| > 0 && AllDigits(answer) then
      (if Play.DigitsValue(answer) < 1 then 1 else Play.DigitsValue(answer))
    else DefaultGames
  }

  /**
   * get_inputs: the two names, the number of points and the gravity, each
   * question answered by its own run of keys.  It is aborted when the
   * first question not answered is cancelled, and pending when that one is
   * still being edited.
   */
  function GetInputs(keys1: seq<Key>, keys2: seq<Key>, keys3: seq<Key>, keys4: seq<Key>): (r: Inputs)
    ensures r.Ready? ==> |r.player1| <= NameLength && |r.player2| <= NameLength && r.numGames >= 1
    ensures r.Ready? <==>
      Edit(keys1, "", "Player 1", false).Entered? && Edit(keys2, "", "Player 2", false).Entered? &&
      Edit(keys3, "", "3", true).Entered? && Edit(keys4, "", "9.8", true).Entered?
    ensures r.Aborted? <==>
      || Edit(keys1, "", "Player 1", false).Cancelled?
      || (Edit(keys1, "", "Player 1", false).Entered? && Edit(keys2, "", "Player 2", false).Cancelled?)
      || (Edit(keys1, "", "Player 1", false).Entered? && Edit(keys2, "", "Player 2", false).Entered? &&
          Edit(keys3, "", "3", true).Cancelled?)
      || (Edit(keys1, "", "Player 1", false).Entered? && Edit(keys2, "", "Player 2", false).Entered? &&
          Edit(keys3, "", "3", true).Entered? && Edit(keys4, "", "9.8", true).Cancelled?)
    ensures r.Ready? ==>
      && r.player1 == Name(Edit(keys1, "", "Player 1", false).text)
      && r.player2 == Name(Edit(keys2, "", "Player 2", false).text)
      && r.player1 <= Edit(keys1, "", "Player 1", false).text
      && r.player2 <= Edit(keys2, "", "Player 2", false).text
      && Shaped(true, Edit(keys3, "", "3", true).text)
      && r.numGames == NumGames(Edit(keys3, "", "3", true).text)
      && r.gravity == Edit(keys4, "", "9.8", true).text
  {
    var e1 := Edit(keys1, "", "Player 1", false);
    if !e1.Entered? then (if e1.Cancelled? then Aborted else Pending)
    else
      var e2 := Edit(keys2, "", "Player 2", false);
      if !e2.Entered? then (if e2.Cancelled? then Aborted else Pending)
      else
        var e3 := Edit(keys3, "", "3", true);
        if !e3.Entered? then (if e3.Cancelled? then Aborted else Pending)
        else
          var e4 := Edit(keys4, "", "9.8", true);
          if !e4.Entered? then (if e4.Cancelled? then Aborted else Pending)
          else
            EditShaped(keys3, "", "3", true);
            assert Shaped(true, "3") by { assert "3"[0] == '3'; }
            Ready(Name(e1.text), Name(e2.text), NumGames(e3.text), e4.text)
  }
}
