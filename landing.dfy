/** The script of the static landing page: the typing animation of the loading screen, the
    theme switch, and the chat widget's typing indicator and send guard. */
module Landing {
  import opened Wrappers
  import opened Text

  // ---------------------------------------------------------------------------
  // the typing animation

  /** The animation's position: which text, how many characters of it, and the direction. */
  datatype Typing = Typing(textIndex: nat, charIndex: int, isDeleting: bool)

  const Start := Typing(0, 0, false)

  const Cursor := "<span class=\"cursor\"></span>"

  /** `s.substring(0, end)`: the end is clamped to the string. */
  function SubstringTo(s: string, end: int): (r: string)
    ensures r <= s
    ensures 0 <= end <= |s| ==> r == s[..end]
  {
    if end <= 0 then "" else if end >= |s| then s else s[..end]
  }

  /** `options.x || d`: a missing or zero option takes the default. */
  function OptionOr(x: Option<int>, d: int): (r: int)
    ensures x.None? ==> r == d
    ensures x.Some? ==> r == if x.value == 0 then d else x.value
  {
    if x.Some? && x.value != 0 then x.value else d
  }

  /** One `type()` step: one character more while typing, one less while deleting; a full
      text turns to deleting, an emptied one to typing the next text, cyclically. */
  function Step(texts: seq<string>, s: Typing): (r: Typing)
    requires s.textIndex < |texts|
    ensures r.textIndex < |texts|
  {
    var current := texts[s.textIndex];
    var c := if s.isDeleting then s.charIndex - 1 else s.charIndex + 1;
    if !s.isDeleting && c == |current| then Typing(s.textIndex, c, true)
    else if s.isDeleting && c == 0 then Typing((s.textIndex + 1) % |texts|, c, false)
    else Typing(s.textIndex, c, s.isDeleting)
  }

  /** What a step writes into the element, before any switch of text. */
  function Shown(texts: seq<string>, s: Typing): string
    requires s.textIndex < |texts|
  {
    var current := texts[s.textIndex];
    SubstringTo(current, if s.isDeleting then s.charIndex - 1 else s.charIndex + 1) + Cursor
  }

  /** The wait before the next step: the pause after a full text, else the speed of the
      direction the step went. */
  function Delay(texts: seq<string>, s: Typing, typeSpeed: int, deleteSpeed: int, pauseTime: int): (r: int)
    requires s.textIndex < |texts|
    ensures r in {typeSpeed, deleteSpeed, pauseTime}
  {
    if !s.isDeleting && Step(texts, s).isDeleting then pauseTime
    else if s.isDeleting then deleteSpeed else typeSpeed
  }

  predicate AllNonEmpty(texts: seq<string>) {
    forall i :: 0 <= i < |texts| ==> texts[i] != ""
  }

  /** The positions the animation passes through when no text is empty: typing stops short
      of the full text, deleting keeps at least one character. */
  predicate Reachable(texts: seq<string>, s: Typing) {
    AllNonEmpty(texts) && s.textIndex < |texts| &&
    if s.isDeleting then 1 <= s.charIndex <= |texts[s.textIndex]|
    else 0 <= s.charIndex < |texts[s.textIndex]|
  }

  lemma StartReachable(texts: seq<string>)
    requires |texts| > 0 && AllNonEmpty(texts)
    ensures Reachable(texts, Start)
  {
    assert texts[0] != "";
  }

  /** A step keeps the animation within its texts. */
  lemma StepReachable(texts: seq<string>, s: Typing)
    requires Reachable(texts, s)
    ensures Reachable(texts, Step(texts, s))
    ensures 0 <= Step(texts, s).charIndex <= |texts[Step(texts, s).textIndex]|
  {
    var r := Step(texts, s);
    assert texts[r.textIndex] != "";
  }

  /** After each step the element shows the first `charIndex` characters of the current
      text, followed by the cursor. */
  lemma StepShowsPrefix(texts: seq<string>, s: Typing)
    requires Reachable(texts, s)
    ensures var r := Step(texts, s);
            Shown(texts, s) == texts[r.textIndex][..r.charIndex] + Cursor
  {
  }

  /** While typing the index goes up by one and while deleting down by one; completing a text
      turns to deleting after the pause, and emptying it turns to the next text. */
  lemma StepDirection(texts: seq<string>, s: Typing, typeSpeed: int, deleteSpeed: int, pauseTime: int)
    requires s.textIndex < |texts|
    ensures Step(texts, s).charIndex == if s.isDeleting then s.charIndex - 1 else s.charIndex + 1
    ensures !s.isDeleting && s.charIndex + 1 == |texts[s.textIndex]| ==>
              Step(texts, s).isDeleting && Delay(texts, s, typeSpeed, deleteSpeed, pauseTime) == pauseTime
    ensures s.isDeleting && s.charIndex == 1 ==>
              !Step(texts, s).isDeleting && Step(texts, s).textIndex == (s.textIndex + 1) % |texts|
  {
  }

  /** An empty text is never finished: typing it runs past its end without turning. */
  lemma EmptyTextKeepsTyping(texts: seq<string>, s: Typing)
    requires s.textIndex < |texts| && texts[s.textIndex] == "" && !s.isDeleting && s.charIndex >= 0
    ensures var r := Step(texts, s); !r.isDeleting && r.textIndex == s.textIndex && r.charIndex > |texts[s.textIndex]|
  {
  }

  /** `k` steps. */
  function Run(texts: seq<string>, s: Typing, k: nat): (r: Typing)
    requires s.textIndex < |texts|
    ensures r.textIndex < |texts|
    decreases k
  {
    if k == 0 then s else Run(texts, Step(texts, s), k - 1)
  }

  lemma {:induction false} RunAdd(texts: seq<string>, s: Typing, a: nat, b: nat)
    requires s.textIndex < |texts|
    ensures Run(texts, s, a + b) == Run(texts, Run(texts, s, a), b)
    decreases a
  {
    if a > 0 {
      RunAdd(texts, Step(texts, s), a - 1, b);
    }
  }

  lemma {:induction false} TypeUp(texts: seq<string>, i: nat, c: nat, k: nat)
    requires i < |texts| && c + k < |texts[i]|
    ensures Run(texts, Typing(i, c, false), k) == Typing(i, c + k, false)
    decreases k
  {
    if k > 0 {
      assert Step(texts, Typing(i, c, false)) == Typing(i, c + 1, false);
      TypeUp(texts, i, c + 1, k - 1);
    }
  }

  lemma {:induction false} DeleteDown(texts: seq<string>, i: nat, c: int, k: nat)
    requires i < |texts| && c - k >= 1
    ensures Run(texts, Typing(i, c, true), k) == Typing(i, c - k, true)
    decreases k
  {
    if k > 0 {
      assert Step(texts, Typing(i, c, true)) == Typing(i, c - 1, true);
      DeleteDown(texts, i, c - 1, k - 1);
    }
  }

  /** A text of `n` characters is typed out and deleted again in `2 n` steps, after which the
      animation starts on the next text. */
  lemma Cycle(texts: seq<string>, i: nat)
    requires i < |texts| && texts[i] != ""
    ensures Run(texts, Typing(i, 0, false), 2 * |texts[i]|) == Typing((i + 1) % |texts|, 0, false)
  {
    var n := |texts[i]|;
    var s0 := Typing(i, 0, false);
    TypeUp(texts, i, 0, n - 1);
    var s1 := Typing(i, n - 1, false);
    assert Run(texts, s1, 1) == Typing(i, n, true);
    RunAdd(texts, s0, n - 1, 1);
    var s2 := Typing(i, n, true);
    DeleteDown(texts, i, n, n - 1);
    var s3 := Typing(i, 1, true);
    assert Run(texts, s3, 1) == Typing((i + 1) % |texts|, 0, false);
    RunAdd(texts, s2, n - 1, 1);
    RunAdd(texts, s0, n, n);
  }

  /** The animation object: the element's content and the delay of the next scheduled step
      are fields, the timer itself is not modelled. */
  class TypingAnimation {
    const texts: seq<string>
    const typeSpeed: int
    const deleteSpeed: int
    const pauseTime: int
    var textIndex: nat
    var charIndex: int
    var isDeleting: bool
    var display: string
    var delay: int

    function State(): Typing
      reads this
    {
      Typing(textIndex, charIndex, isDeleting)
    }

    predicate Valid()
      reads this
    {
      textIndex < |texts|
    }

    /** The constructor, which takes the first step at once. */
    constructor(texts: seq<string>, typeSpeed: Option<int>, deleteSpeed: Option<int>, pauseTime: Option<int>)
      requires |texts| > 0
      ensures Valid() && this.texts == texts
      ensures this.typeSpeed == OptionOr(typeSpeed, 60) && this.deleteSpeed == OptionOr(deleteSpeed, 30)
      ensures this.pauseTime == OptionOr(pauseTime, 800)
      ensures State() == Step(texts, Start) && display == Shown(texts, Start)
    {
      this.texts := texts;
      this.typeSpeed := OptionOr(typeSpeed, 60);
      this.deleteSpeed := OptionOr(deleteSpeed, 30);
      this.pauseTime := OptionOr(pauseTime, 800);
      textIndex, charIndex, isDeleting := 0, 0, false;
      new;
      Type();
    }

    /** `type()`. */
    method Type()
      requires Valid()
      modifies this
      ensures Valid()
      ensures State() == Step(texts, old(State()))
      ensures display == Shown(texts, old(State()))
      ensures delay == Delay(texts, old(State()), typeSpeed, deleteSpeed, pauseTime)
    {
      var currentText := texts[textIndex];
      if isDeleting {
        display := SubstringTo(currentText, charIndex - 1) + Cursor;
        charIndex := charIndex - 1;
      } else {
        display := SubstringTo(currentText, charIndex + 1) + Cursor;
        charIndex := charIndex + 1;
      }
      var speed := if isDeleting then deleteSpeed else typeSpeed;
      if !isDeleting && charIndex == |currentText| {
        speed := pauseTime;
        isDeleting := true;
      } else if isDeleting && charIndex == 0 {
        isDeleting := false;
        textIndex := (textIndex + 1) % |texts|;
      }
      delay := speed;
    }
  }

  // ---------------------------------------------------------------------------
  // the theme switch

  /** `currentTheme === 'light' ? 'dark' : 'light'`. */
  function NextTheme(current: Option<string>): (r: string)
    ensures r in {"light", "dark"}
    ensures r == "dark" <==> current == Some("light")
  {
    if current == Some("light") then "dark" else "light"
  }

  /** Two toggles restore a light or dark theme; a page without a theme attribute ends up
      dark. */
  lemma ToggleTwice(current: Option<string>)
    ensures current == Some("light") || current == Some("dark") ==> NextTheme(Some(NextTheme(current))) == current.value
    ensures current.None? ==> NextTheme(Some(NextTheme(current))) == "dark"
  {
  }

  /** `initializeTheme`: a saved (non-empty) theme is applied; without one, a page that does
      not prefer dark gets `light`; otherwise the attribute is left as it is. */
  function InitialTheme(saved: Option<string>, prefersDark: bool, current: Option<string>): (r: Option<string>)
    ensures Truthy(saved) ==> r == saved
    ensures !Truthy(saved) && !prefersDark ==> r == Some("light")
    ensures !Truthy(saved) && prefersDark ==> r == current
  {
    if Truthy(saved) then saved else if !prefersDark then Some("light") else current
  }

  /** The `data-theme` attribute of the document and the `theme` entry of local storage. */
  class ThemeDocument {
    var dataTheme: Option<string>
    var savedTheme: Option<string>

    constructor(dataTheme: Option<string>, savedTheme: Option<string>)
      ensures this.dataTheme == dataTheme && this.savedTheme == savedTheme
    {
      this.dataTheme := dataTheme;
      this.savedTheme := savedTheme;
    }

    /** `toggleTheme`: the new theme is set and saved. */
    method ToggleTheme()
      modifies this
      ensures dataTheme == Some(NextTheme(old(dataTheme))) && savedTheme == dataTheme
    {
      var newTheme := if dataTheme == Some("light") then "dark" else "light";
      dataTheme := Some(newTheme);
      savedTheme := Some(newTheme);
    }

    /** `initializeTheme`; `prefersDark` is the colour-scheme media query. Storage is only
        read. */
    method InitializeTheme(prefersDark: bool)
      modifies this
      ensures dataTheme == InitialTheme(old(savedTheme), prefersDark, old(dataTheme))
      ensures savedTheme == old(savedTheme)
    {
      if Truthy(savedTheme) {
        dataTheme := savedTheme;
      } else if !prefersDark {
        dataTheme := Some("light");
      }
    }
  }

  // ---------------------------------------------------------------------------
  // the chat widget

  /** The children of the message list. */
  datatype Item = Welcome | UserMessage(text: string) | BotMessage(text: string) | Indicator | ErrorNote(text: string)

  /** The position of the first child equal to `x`, or the length when there is none. */
  function FirstIndex(items: seq<Item>, x: Item): (i: nat)
    ensures i <= |items| && x !in items[..i]
    ensures i < |items| <==> x in items
    ensures i < |items| ==> items[i] == x
    decreases |items|
  {
    if items == [] then 0
    else if items[0] == x then 0
    else
      var j := FirstIndex(items[1..], x);
      assert items[..j + 1] == [items[0]] + items[1..][..j];
      j + 1
  }

  /** `element.remove()` on the first child equal to `x`, when there is one. */
  function RemoveFirst(items: seq<Item>, x: Item): (r: seq<Item>)
    ensures x !in items ==> r == items
    ensures x in items ==> |r| == |items| - 1 && multiset(r) == multiset(items) - multiset{x}
  {
    var i := FirstIndex(items, x);
    if i == |items| then items
    else
      assert items == items[..i] + [items[i]] + items[i + 1..];
      items[..i] + items[i + 1..]
  }

  /** The number of typing indicators. */
  function Indicators(items: seq<Item>): nat
    decreases |items|
  {
    if items == [] then 0 else (if items[0] == Indicator then 1 else 0) + Indicators(items[1..])
  }

  lemma {:induction false} IndicatorsAppend(a: seq<Item>, b: seq<Item>)
    ensures Indicators(a + b) == Indicators(a) + Indicators(b)
    decreases |a|
  {
    if a == [] {
      assert a + b == b;
    } else {
      assert (a + b)[0] == a[0];
      assert (a + b)[1..] == a[1..] + b;
      IndicatorsAppend(a[1..], b);
    }
  }

  /** A list without an indicator counts none. */
  lemma {:induction false} IndicatorsAbsent(items: seq<Item>)
    requires Indicator !in items
    ensures Indicators(items) == 0
    decreases |items|
  {
    if items != [] {
      assert items[0] != Indicator;
      IndicatorsAbsent(items[1..]);
    }
  }

  /** Removing the first child equal to `x` takes away one indicator exactly when it removes
      an indicator. */
  lemma {:induction false} IndicatorsRemoveFirst(items: seq<Item>, x: Item)
    ensures Indicators(RemoveFirst(items, x)) == Indicators(items) - if x == Indicator && x in items then 1 else 0
  {
    var i := FirstIndex(items, x);
    if i < |items| {
      assert items == items[..i] + ([x] + items[i + 1..]);
      IndicatorsSplice(items[..i], x, items[i + 1..]);
    }
  }

  lemma {:induction false} IndicatorsSplice(front: seq<Item>, x: Item, back: seq<Item>)
    ensures Indicators(front + ([x] + back)) == Indicators(front + back) + if x == Indicator then 1 else 0
  {
    IndicatorsAppend(front, [x] + back);
    IndicatorsAppend([x], back);
    IndicatorsAppend(front, back);
    assert [x][1..] == [];
  }

  const ConnectNote := "Failed to connect to chat service. Please try again later."
  const SorryNote := "Sorry, something went wrong. Please try again later."
  const NoReplyText := "Sorry, I didn't receive a proper response."

  /** What `client.predict` gives: the first datum of its result, or a thrown error. */
  datatype Prediction = Predicted(datum: Option<string>) | PredictFailed

  /** The text `sendToGradio` returns for a datum: the datum, or the stock answer when it is
      missing or empty. */
  function ReplyText(datum: Option<string>): (r: string)
    ensures Truthy(datum) ==> r == datum.value
    ensures !Truthy(datum) ==> r == NoReplyText
  {
    OrDefault(datum, NoReplyText)
  }

  /** The widget: the message list (absent when the page has none), the `isTyping` flag, the
      input's text, the send button's state, and whether the chat client is connected. */
  class ChatWidget {
    const hasList: bool
    const hasControls: bool
    var items: seq<Item>
    var connected: bool
    var isTyping: bool
    var input: string
    var sendDisabled: bool
    var sendIcon: string

    /** At most one typing indicator, and none unless the flag is set. */
    predicate Valid()
      reads this
    {
      Indicators(items) <= if isTyping then 1 else 0
    }

    constructor(hasList: bool, hasControls: bool)
      ensures Valid() && this.hasList == hasList && this.hasControls == hasControls
      ensures items == [Welcome] && !isTyping && input == "" && !sendDisabled && sendIcon == "→"
      ensures !connected
    {
      this.hasList := hasList;
      this.hasControls := hasControls;
      items := [Welcome];
      connected := false;
      isTyping := false;
      input := "";
      sendDisabled := false;
      sendIcon := "→";
    }

    /** `addMessage`: the welcome message goes, the message is appended. */
    method AddMessage(content: string, isUser: bool)
      requires Valid()
      modifies this
      ensures Valid()
      ensures items == if hasList then RemoveFirst(old(items), Welcome) + [if isUser then UserMessage(content) else BotMessage(content)]
                       else old(items)
      ensures isTyping == old(isTyping) && input == old(input) && connected == old(connected)
      ensures sendDisabled == old(sendDisabled) && sendIcon == old(sendIcon)
    {
      if hasList {
        var message := if isUser then UserMessage(content) else BotMessage(content);
        IndicatorsRemoveFirst(items, Welcome);
        IndicatorsAppend(RemoveFirst(items, Welcome), [message]);
        items := RemoveFirst(items, Welcome) + [message];
      }
    }

    /** `showError`. */
    method ShowError(message: string)
      requires Valid()
      modifies this
      ensures Valid()
      ensures items == if hasList then old(items) + [ErrorNote(message)] else old(items)
      ensures isTyping == old(isTyping) && input == old(input) && connected == old(connected)
      ensures sendDisabled == old(sendDisabled) && sendIcon == old(sendIcon)
    {
      if hasList {
        IndicatorsAppend(items, [ErrorNote(message)]);
        items := items + [ErrorNote(message)];
      }
    }

    /** `showTyping`: nothing while an indicator is up. */
    method ShowTyping()
      requires Valid()
      modifies this
      ensures Valid()
      ensures old(isTyping) || !hasList ==> items == old(items) && isTyping == old(isTyping)
      ensures !old(isTyping) && hasList ==> items == old(items) + [Indicator] && isTyping
      ensures input == old(input) && sendDisabled == old(sendDisabled) && sendIcon == old(sendIcon)
      ensures connected == old(connected)
    {
      if isTyping {
        return;
      }
      if !hasList {
        return;
      }
      isTyping := true;
      IndicatorsAppend(items, [Indicator]);
      items := items + [Indicator];
    }

    /** `hideTyping`: the indicator goes and the flag is cleared. */
    method HideTyping()
      requires Valid()
      modifies this
      ensures Valid() && !isTyping && Indicators(items) == 0
      ensures items == RemoveFirst(old(items), Indicator)
      ensures input == old(input) && sendDisabled == old(sendDisabled) && sendIcon == old(sendIcon)
      ensures connected == old(connected)
    {
      IndicatorsRemoveFirst(items, Indicator);
      if Indicator !in items {
        IndicatorsAbsent(items);
      }
      items := RemoveFirst(items, Indicator);
      isTyping := false;
    }

    /** The part of `sendMessage` before the reply is awaited; `sent` is the message sent.
        Nothing happens when a control is missing, the trimmed input is empty or the button
        is disabled. */
    method SendMessage() returns (sent: Option<string>)
      requires Valid()
      modifies this
      ensures Valid()
      ensures !hasControls || Trim(old(input)) == "" || old(sendDisabled) ==>
                sent.None? && items == old(items) && input == old(input) && isTyping == old(isTyping)
                && sendDisabled == old(sendDisabled) && sendIcon == old(sendIcon)
      ensures hasControls && Trim(old(input)) != "" && !old(sendDisabled) ==>
                sent == Some(Trim(old(input))) && input == "" && sendDisabled && sendIcon == "..."
      ensures connected == old(connected)
    {
      if !hasControls {
        return None;
      }
      var message := Trim(input);
      if message == "" || sendDisabled {
        return None;
      }
      AddMessage(message, true);
      input := "";
      sendDisabled := true;
      sendIcon := "...";
      ShowTyping();
      sent := Some(message);
    }

    /** `initGradioClient`, called once the page is set up and again before every message:
        nothing to do once connected; otherwise `fails` is the connection attempt throwing,
        which shows the connection note. */
    method Connect(fails: bool) returns (ok: bool)
      requires Valid()
      modifies this
      ensures Valid()
      ensures ok <==> old(connected) || !fails
      ensures connected == ok
      ensures items == if !old(connected) && fails && hasList then old(items) + [ErrorNote(ConnectNote)] else old(items)
      ensures isTyping == old(isTyping) && input == old(input)
      ensures sendDisabled == old(sendDisabled) && sendIcon == old(sendIcon)
    {
      if connected {
        return true;
      }
      if fails {
        ShowError(ConnectNote);
        return false;
      }
      connected := true;
      ok := true;
    }

    /** The rest of `sendMessage`: `sendToGradio` connects first (`connectFails` is that
        attempt throwing, when not yet connected) and then asks for the reply; a failed
        connection or prediction ends in the apology note after the indicator has gone. */
    method ReceiveReply(connectFails: bool, prediction: Prediction)
      requires Valid()
      modifies this
      ensures Valid() && !isTyping && !sendDisabled && sendIcon == "→" && input == old(input)
      ensures connected == (old(connected) || !connectFails)
      ensures var lost := !old(connected) && connectFails;
              var noted := if lost && hasList then old(items) + [ErrorNote(ConnectNote)] else old(items);
              var quiet := RemoveFirst(noted, Indicator);
              items == if !hasList then quiet
                       else if !lost && prediction.Predicted? then RemoveFirst(quiet, Welcome) + [BotMessage(ReplyText(prediction.datum))]
                       else quiet + [ErrorNote(SorryNote)]
    {
      var ok := Connect(connectFails);
      var reply := if ok && prediction.Predicted? then Some(ReplyText(prediction.datum)) else None;
      HideTyping();
      if reply.Some? {
        AddMessage(reply.value, false);
      } else {
        ShowError(SorryNote);
      }
      sendDisabled := false;
      sendIcon := "→";
    }
  }

  /** A sent message followed by its reply leaves the list as before plus the two messages,
      without an indicator, when no indicator was up and the welcome message was gone. */
  lemma ExchangeAppends(items: seq<Item>, message: string, reply: string)
    requires Indicator !in items && Welcome !in items
    ensures var shown := RemoveFirst(items, Welcome) + [UserMessage(message)] + [Indicator];
            RemoveFirst(RemoveFirst(shown, Indicator), Welcome) + [BotMessage(reply)] ==
              items + [UserMessage(message), BotMessage(reply)]
  {
    var front := items + [UserMessage(message)];
    assert Indicator !in front;
    var shown := front + [Indicator];
    assert FirstIndex(shown, Indicator) == |front| by {
      assert forall k | 0 <= k < |front| :: shown[k] == front[k];
    }
    assert shown[..|front|] == front;
    assert Welcome !in front;
  }

  /** A message sent before the client could connect: the connection note and then the
      apology follow the message, and the indicator is gone. */
  lemma ConnectFailureAppends(items: seq<Item>, message: string)
    requires Indicator !in items && Welcome !in items
    ensures var shown := RemoveFirst(items, Welcome) + [UserMessage(message)] + [Indicator];
            RemoveFirst(shown + [ErrorNote(ConnectNote)], Indicator) + [ErrorNote(SorryNote)] ==
              items + [UserMessage(message), ErrorNote(ConnectNote), ErrorNote(SorryNote)]
  {
    var front := items + [UserMessage(message)];
    assert Indicator !in front;
    var shown := front + [Indicator] + [ErrorNote(ConnectNote)];
    assert FirstIndex(shown, Indicator) == |front| by {
      assert forall k | 0 <= k < |front| :: shown[k] == front[k];
    }
    assert shown[..|front|] == front;
    assert shown[|front| + 1..] == [ErrorNote(ConnectNote)];
  }
}
