/**
 * `ml/nlp_parse.py`: pulling the amount, the receiver and the action out of a
 * transcribed payment command. Digits are the ASCII digits; the currency-word
 * test lowers ASCII letters only.
 */
module NlpParse {
  import opened Wrappers
  import opened Text

  // ---------------------------------------------------------------- amount

  /** Index of the first digit of `s`, or `|s|` when there is none. */
  function FirstDigit(s: string): (i: nat)
    ensures i <= |s|
    ensures forall k :: 0 <= k < i ==> !IsDigit(s[k])
    ensures i < |s| ==> IsDigit(s[i])
  {
    if s == [] || IsDigit(s[0]) then 0 else 1 + FirstDigit(s[1..])
  }

  /** Length of the run of digits that starts `s`. */
  function DigitRunLength(s: string): (n: nat)
    ensures n <= |s|
    ensures forall k :: 0 <= k < n ==> IsDigit(s[k])
    ensures n < |s| ==> !IsDigit(s[n])
  {
    if s == [] || !IsDigit(s[0]) then 0 else 1 + DigitRunLength(s[1..])
  }

  /** `text[i..j]` is the first maximal run of digits: what `re.findall(r"\d+", text)[0]` finds. */
  predicate IsFirstDigitRun(text: string, i: int, j: int) {
    && 0 <= i < j <= |text|
    && (forall k :: 0 <= k < i ==> !IsDigit(text[k]))
    && (forall k :: i <= k < j ==> IsDigit(text[k]))
    && (j == |text| || !IsDigit(text[j]))
  }

  /** `int(s)` of a string of decimal digits (leading zeros allowed). */
  function DigitsValue(s: string): nat
    requires forall k :: 0 <= k < |s| ==> IsDigit(s[k])
  {
    if s == [] then 0
    else
      assert IsDigit(s[|s| - 1]);
      10 * DigitsValue(s[..|s| - 1]) + (s[|s| - 1] as int - '0' as int)
  }

  /** `extract_amount(text)`. */
  function ExtractAmount(text: string): (r: Option<nat>)
    ensures r.None? <==> forall k :: 0 <= k < |text| ==> !IsDigit(text[k])
  {
    var i := FirstDigit(text);
    if i == |text| then None
    else Some(DigitsValue(text[i..i + DigitRunLength(text[i..])]))
  }

  /** The amount is the decimal value of the first maximal run of digits. */
  lemma ExtractAmountIsFirstRun(text: string, i: int, j: int)
    requires IsFirstDigitRun(text, i, j)
    ensures ExtractAmount(text) == Some(DigitsValue(text[i..j]))
  {
    assert IsDigit(text[i]);
    assert text[i..][j - i - 1] == text[j - 1];
  }

  /** Whenever the text has a digit, there is a first maximal run of digits. */
  lemma FirstDigitRunExists(text: string, d: int)
    requires 0 <= d < |text| && IsDigit(text[d])
    ensures IsFirstDigitRun(text, FirstDigit(text), FirstDigit(text) + DigitRunLength(text[FirstDigit(text)..]))
  {
    var i := FirstDigit(text);
    var n := DigitRunLength(text[i..]);
    assert text[i..][0] == text[i];
    forall k | i <= k < i + n ensures IsDigit(text[k]) {
      assert text[i..][k - i] == text[k];
    }
    if i + n < |text| {
      assert text[i..][n] == text[i + n];
    }
  }

  // ---------------------------------------------------------------- receiver

  const Triggers: seq<string> := ["pay", "send", "transfer", "transwar"]
  const CurrencyWords: set<string> := {"rs", "inr", "rupees", "rupay"}

  /** `re.fullmatch(r"\d+", w)`. */
  predicate AllDigits(w: string) {
    |w| > 0 && forall k :: 0 <= k < |w| ==> IsDigit(w[k])
  }

  /** A token that ends the receiver: a bare number or a currency word in any case. */
  predicate IsStopWord(w: string) {
    AllDigits(w) || Lower(w) in CurrencyWords
  }

  /** `words.index(w)`, or `|words|` when `w not in words`. */
  function IndexOf(words: seq<string>, w: string): (i: nat)
    ensures i <= |words|
    ensures forall k :: 0 <= k < i ==> words[k] != w
    ensures i < |words| ==> words[i] == w
    ensures i == |words| <==> w !in words
  {
    if words == [] then 0
    else if words[0] == w then 0
    else 1 + IndexOf(words[1..], w)
  }

  /** Number of leading tokens of `tail` before the first stop word. */
  function StopIndex(tail: seq<string>): (n: nat)
    ensures n <= |tail|
    ensures forall k :: 0 <= k < n ==> !IsStopWord(tail[k])
    ensures n < |tail| ==> IsStopWord(tail[n])
  {
    if tail == [] || IsStopWord(tail[0]) then 0 else 1 + StopIndex(tail[1..])
  }

  /** The receiver one trigger yields among `words`, or None when the loop moves on. */
  function TriggerReceiver(words: seq<string>, trigger: string): Option<string> {
    var i := IndexOf(words, trigger);
    if i == |words| then None
    else
      var tail := words[i + 1..];
      if tail == [] then None
      else
        var receiver := Strip(Join(tail[..StopIndex(tail)]));
        if receiver != "" then Some(receiver) else None
  }

  /** The receiver each trigger would yield, in trigger order. */
  function TriggerYields(words: seq<string>, triggers: seq<string>): (ys: seq<Option<string>>)
    ensures |ys| == |triggers|
  {
    seq(|triggers|, j requires 0 <= j < |triggers| => TriggerReceiver(words, triggers[j]))
  }

  /** The triggers are tried in order; the first yield that is a receiver wins. */
  function FirstYield(ys: seq<Option<string>>): Option<string> {
    if ys == [] then None
    else if ys[0].Some? then ys[0]
    else FirstYield(ys[1..])
  }

  /** What `extract_receiver(text)` returns. */
  function Receiver(text: string): Option<string> {
    var words := Split(text);
    if "to" in words then Some(Strip(Join(words[IndexOf(words, "to") + 1..])))
    else if "for" in words then Some(Strip(Join(words[IndexOf(words, "for") + 1..])))
    else FirstYield(TriggerYields(words, Triggers))
  }

  /** The inner loop of `extract_receiver`: the tokens after the trigger, up to the first stop word. */
  method CollectReceiverTokens(tail: seq<string>) returns (receiverTokens: seq<string>)
    ensures receiverTokens == tail[..StopIndex(tail)]
  {
    receiverTokens := [];
    var k := 0;
    while k < |tail|
      invariant 0 <= k <= StopIndex(tail)
      invariant receiverTokens == tail[..k]
    {
      if IsStopWord(tail[k]) {
        break;
      }
      receiverTokens := receiverTokens + [tail[k]];
      k := k + 1;
    }
  }

  /** One pass of the trigger loop of `extract_receiver`. */
  method ReceiverAfterTrigger(words: seq<string>, trigger: string) returns (r: Option<string>)
    ensures r == TriggerReceiver(words, trigger)
  {
    r := None;
    if trigger in words {
      var i := IndexOf(words, trigger);
      var tail := words[i + 1..];
      if tail != [] {
        var receiverTokens := CollectReceiverTokens(tail);
        var receiver := Strip(Join(receiverTokens));
        if receiver != "" {
          r := Some(receiver);
        }
      }
    }
  }

  /** `extract_receiver(text)`: the `to` and `for` rules, then the trigger loop. */
  method ExtractReceiver(text: string) returns (r: Option<string>)
    ensures r == Receiver(text)
  {
    var words := Split(text);
    if "to" in words {
      var i := IndexOf(words, "to");
      return Some(Strip(Join(words[i + 1..])));
    }
    if "for" in words {
      var i := IndexOf(words, "for");
      return Some(Strip(Join(words[i + 1..])));
    }
    ghost var ys := TriggerYields(words, Triggers);
    var t := 0;
    while t < |Triggers|
      invariant 0 <= t <= |Triggers|
      invariant FirstYield(ys[t..]) == FirstYield(ys)
    {
      assert ys[t..][0] == ys[t] == TriggerReceiver(words, Triggers[t]);
      assert ys[t..][1..] == ys[t + 1..];
      var receiver := ReceiverAfterTrigger(words, Triggers[t]);
      if receiver.Some? {
        return receiver;
      }
      t := t + 1;
    }
    return None;
  }

  /** `trigger` first occurs at `i`, and the `m > 0` tokens after it up to the next stop word join to `x`. */
  predicate YieldsAt(words: seq<string>, trigger: string, i: int, m: int, x: string) {
    && 0 <= i < |words| && words[i] == trigger
    && (forall k :: 0 <= k < i ==> words[k] != trigger)
    && 0 < m && i + 1 + m <= |words|
    && (forall k :: i + 1 <= k < i + 1 + m ==> !IsStopWord(words[k]))
    && (i + 1 + m == |words| || IsStopWord(words[i + 1 + m]))
    && x == Join(words[i + 1..][..m])
  }

  /** A trigger followed by no token before the next stop word yields nothing. */
  lemma EmptyRunYieldsNothing(words: seq<string>, trigger: string)
    requires IndexOf(words, trigger) < |words| && StopIndex(words[IndexOf(words, trigger) + 1..]) == 0
    ensures TriggerReceiver(words, trigger) == None
  {
    var tail := words[IndexOf(words, trigger) + 1..];
    assert tail[..0] == [];
    assert Strip(Join(tail[..0])) == "";
  }

  /** The tokens of `tail` before its first stop word, joined, are left alone by stripping. */
  lemma StrippedRun(tail: seq<string>)
    requires forall k :: 0 <= k < |tail| ==> IsToken(tail[k])
    requires StopIndex(tail) > 0
    ensures Strip(Join(tail[..StopIndex(tail)])) == Join(tail[..StopIndex(tail)]) != ""
  {
    var run := tail[..StopIndex(tail)];
    forall k | 0 <= k < |run| ensures IsToken(run[k]) {
      assert run[k] == tail[k];
    }
    StripJoinOfTokens(run);
  }

  /**
   * A trigger yields the join of the tokens between its first occurrence and
   * the next stop word, or None when there are none: stripping never changes a
   * join of tokens, and only an empty run joins to "".
   */
  lemma TriggerReceiverShape(words: seq<string>, trigger: string)
    requires forall k :: 0 <= k < |words| ==> IsToken(words[k])
    ensures var i := IndexOf(words, trigger);
            TriggerReceiver(words, trigger) ==
              if i < |words| && StopIndex(words[i + 1..]) > 0
              then Some(Join(words[i + 1..][..StopIndex(words[i + 1..])]))
              else None
  {
    var i := IndexOf(words, trigger);
    if i < |words| {
      var tail := words[i + 1..];
      if StopIndex(tail) == 0 {
        EmptyRunYieldsNothing(words, trigger);
      } else {
        forall k | 0 <= k < |tail| ensures IsToken(tail[k]) {
          assert tail[k] == words[i + 1 + k];
        }
        StrippedRun(tail);
      }
    }
  }

  /**
   * A trigger that yields a receiver yields the join of the non-empty run of
   * tokens between its first occurrence and the next stop word.
   */
  lemma TriggerReceiverYields(words: seq<string>, trigger: string)
    requires forall k :: 0 <= k < |words| ==> IsToken(words[k])
    ensures TriggerReceiver(words, trigger).Some? ==>
      YieldsAt(words, trigger, IndexOf(words, trigger), StopIndex(words[IndexOf(words, trigger) + 1..]),
               TriggerReceiver(words, trigger).value)
  {
    TriggerReceiverShape(words, trigger);
    var i := IndexOf(words, trigger);
    if i < |words| {
      var tail := words[i + 1..];
      var n := StopIndex(tail);
      forall k | i + 1 <= k < i + 1 + n ensures !IsStopWord(words[k]) {
        assert words[k] == tail[k - i - 1];
      }
      if i + 1 + n < |words| {
        assert words[i + 1 + n] == tail[n];
      }
    }
  }

  /** Conversely, whatever run a trigger's first occurrence is followed by is what it yields. */
  lemma YieldDeterminesReceiver(words: seq<string>, trigger: string, i: int, m: int, x: string)
    requires forall k :: 0 <= k < |words| ==> IsToken(words[k])
    requires YieldsAt(words, trigger, i, m, x)
    ensures TriggerReceiver(words, trigger) == Some(x)
  {
    TriggerReceiverShape(words, trigger);
    assert IndexOf(words, trigger) == i;
    var tail := words[i + 1..];
    assert StopIndex(tail) == m;
  }

  /** `to` takes priority: the receiver is everything after its first occurrence, possibly empty, never None. */
  lemma ToRule(text: string, i: int)
    requires 0 <= i < |Split(text)| && Split(text)[i] == "to"
    requires forall k :: 0 <= k < i ==> Split(text)[k] != "to"
    ensures Receiver(text) == Some(Join(Split(text)[i + 1..]))
  {
    var words := Split(text);
    StripJoinOfTokens(words[i + 1..]);
  }

  /** Without a `to` token, `for` plays the same role. */
  lemma ForRule(text: string, i: int)
    requires "to" !in Split(text)
    requires 0 <= i < |Split(text)| && Split(text)[i] == "for"
    requires forall k :: 0 <= k < i ==> Split(text)[k] != "for"
    ensures Receiver(text) == Some(Join(Split(text)[i + 1..]))
  {
    var words := Split(text);
    StripJoinOfTokens(words[i + 1..]);
  }

  /**
   * The first receiver among the yields, and None only when no trigger yields
   * one: the triggers are tried in the order pay, send, transfer, transwar.
   */
  lemma {:induction false} FirstYieldIsFirst(ys: seq<Option<string>>)
    ensures FirstYield(ys).None? <==> forall j :: 0 <= j < |ys| ==> ys[j].None?
    ensures FirstYield(ys).Some? ==>
      exists j :: 0 <= j < |ys| && ys[j] == FirstYield(ys) && forall j' :: 0 <= j' < j ==> ys[j'].None?
  {
    if ys != [] && ys[0].None? {
      FirstYieldIsFirst(ys[1..]);
      if FirstYield(ys[1..]).Some? {
        var j :| 0 <= j < |ys[1..]| && ys[1..][j] == FirstYield(ys[1..])
                 && forall j' :: 0 <= j' < j ==> ys[1..][j'].None?;
        assert ys[j + 1] == FirstYield(ys);
        forall j' | 0 <= j' < j + 1 ensures ys[j'].None? {
          if j' > 0 {
            assert ys[j'] == ys[1..][j' - 1];
          }
        }
      } else {
        forall j | 0 <= j < |ys| ensures ys[j].None? {
          if j > 0 {
            assert ys[j] == ys[1..][j - 1];
          }
        }
      }
    } else if ys != [] {
      assert ys[0] == FirstYield(ys);
    }
  }

  /**
   * A receiver from the trigger rule is the yield of the first trigger that
   * yields one: a non-empty run of consecutive words after that trigger's first
   * occurrence holding no bare number and no currency word.
   */
  lemma TriggerReceiverIsCleanSlice(text: string)
    requires "to" !in Split(text) && "for" !in Split(text)
    ensures Receiver(text).None? <==> forall j :: 0 <= j < |Triggers| ==> TriggerReceiver(Split(text), Triggers[j]).None?
    ensures Receiver(text).Some? ==>
      exists j, i, m :: 0 <= j < |Triggers| && YieldsAt(Split(text), Triggers[j], i, m, Receiver(text).value)
                        && forall j' :: 0 <= j' < j ==> TriggerReceiver(Split(text), Triggers[j']).None?
  {
    var words := Split(text);
    var ys := TriggerYields(words, Triggers);
    FirstYieldIsFirst(ys);
    assert forall j :: 0 <= j < |Triggers| ==> ys[j] == TriggerReceiver(words, Triggers[j]);
    if Receiver(text).Some? {
      var j :| 0 <= j < |ys| && ys[j] == FirstYield(ys) && forall j' :: 0 <= j' < j ==> ys[j'].None?;
      TriggerReceiverYields(words, Triggers[j]);
    }
  }

  // ---------------------------------------------------------------- action

  /** `extract_action(text)`: substring tests with priority pay, send, transfer. */
  function ExtractAction(text: string): (r: Option<string>)
    ensures r.Some? ==> r.value in {"pay", "send", "transfer"}
  {
    if Contains(text, "pay") then Some("pay")
    else if Contains(text, "send") then Some("send")
    else if Contains(text, "transfer") || Contains(text, "transwar") then Some("transfer")
    else None
  }

  /** The action in terms of where the keywords occur anywhere in the text, inside words too. */
  lemma ExtractActionByOccurrence(text: string)
    ensures ExtractAction(text) == Some("pay") <==> exists i :: OccursAt(text, "pay", i)
    ensures ExtractAction(text) == Some("send") <==>
      (forall i :: !OccursAt(text, "pay", i)) && exists i :: OccursAt(text, "send", i)
    ensures ExtractAction(text) == Some("transfer") <==>
      && (forall i :: !OccursAt(text, "pay", i))
      && (forall i :: !OccursAt(text, "send", i))
      && ((exists i :: OccursAt(text, "transfer", i)) || exists i :: OccursAt(text, "transwar", i))
    ensures ExtractAction(text).None? <==>
      forall i :: !OccursAt(text, "pay", i) && !OccursAt(text, "send", i)
                  && !OccursAt(text, "transfer", i) && !OccursAt(text, "transwar", i)
  {
    ContainsOccurs(text, "pay");
    ContainsOccurs(text, "send");
    ContainsOccurs(text, "transfer");
    ContainsOccurs(text, "transwar");
  }
}
