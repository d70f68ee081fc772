/**
 * The console front end's pure helpers: the bounded chat history, the message
 * list handed to the model, the serialiser that turns it into one prompt
 * string, and the output filter that blocks Latin text.
 */
module Chat {
  import opened Wrappers
  import opened PySeq
  import opened Text

  /** How many history entries the console keeps (main.py:52). */
  const MaxHistoryItems := 40

  /** How many history entries go into one prompt (main.py:213). */
  const PromptHistory := 10

  datatype HistoryEntry = HistoryEntry(time: real, role: string, content: string)

  /** What reading the history file gives: no file, a read or decode error,
      a JSON value other than a list, or a list of entries. */
  datatype HistoryPayload = NoFile | Unreadable | NotAList | ListPayload(items: seq<HistoryEntry>)

  /** `_load_history`: the last 40 entries of a list payload, otherwise nothing. */
  function LoadHistory(p: HistoryPayload): (h: seq<HistoryEntry>)
    ensures |h| <= MaxHistoryItems
    ensures !p.ListPayload? ==> h == []
    ensures p.ListPayload? ==> |h| == if |p.items| < MaxHistoryItems then |p.items| else MaxHistoryItems
    ensures p.ListPayload? ==> h == p.items[|p.items| - |h|..]
  {
    if p.ListPayload? then LastN(p.items, MaxHistoryItems) else []
  }

  /** The history after `_append_history` has added entry `e`. */
  function AppendedHistory(h: seq<HistoryEntry>, e: HistoryEntry): (r: seq<HistoryEntry>)
  {
    LastN(h + [e], MaxHistoryItems)
  }

  /** The appended history is bounded, ends with the new entry, and keeps the
      newest of the earlier entries in their order; nothing is dropped while
      there is room. */
  lemma AppendedHistoryProps(h: seq<HistoryEntry>, e: HistoryEntry)
    ensures var r := AppendedHistory(h, e);
      && 0 < |r| <= MaxHistoryItems
      && r[|r| - 1] == e
      && r[..|r| - 1] == h[|h| - (|r| - 1)..]
      && (|h| < MaxHistoryItems ==> r == h + [e])
      && (|h| >= MaxHistoryItems ==> |r| == MaxHistoryItems)
  {
    var r := AppendedHistory(h, e);
    var s := h + [e];
    assert r == s[|s| - |r|..];
    assert r[..|r| - 1] == s[|s| - |r|..|s| - 1];
    assert s[..|s| - 1] == h;
  }

  /** The part of the console that owns the chat history. */
  class ArtyomCore {
    var history: seq<HistoryEntry>

    predicate Valid()
      reads this
    {
      |history| <= MaxHistoryItems
    }

    /** Start from whatever the history file held. */
    constructor(p: HistoryPayload)
      ensures history == LoadHistory(p)
      ensures Valid()
    {
      history := LoadHistory(p);
    }

    /** `_append_history` with the clock reading `now`. */
    method AppendHistory(role: string, content: string, now: real)
      modifies this
      ensures history == AppendedHistory(old(history), HistoryEntry(now, role, content))
      ensures Valid()
    {
      history := history + [HistoryEntry(now, role, content)];
      history := LastN(history, MaxHistoryItems);
    }
  }

  datatype Message = Message(role: string, content: string)

  /** A history entry as a chat message. */
  function AsMessage(e: HistoryEntry): Message {
    Message(e.role, e.content)
  }

  /** The recent history as chat messages: the last ten entries, in order. */
  function Recent(history: seq<HistoryEntry>): seq<Message> {
    var recent := LastN(history, PromptHistory);
    seq(|recent|, (i: int) requires 0 <= i < |recent| => AsMessage(recent[i]))
  }

  /** The message list `build_prompt` assembles: the system block, the recent
      history and the user's input. */
  function Messages(systemBlock: string, history: seq<HistoryEntry>, userInput: string): (ms: seq<Message>)
  {
    [Message("system", systemBlock)] + Recent(history) + [Message("user", userInput)]
  }

  /** One system message first, then the last (at most ten) history entries
      in their order, then the user's input last. */
  lemma MessagesShape(systemBlock: string, history: seq<HistoryEntry>, userInput: string)
    ensures var ms := Messages(systemBlock, history, userInput);
      var k := if |history| < PromptHistory then |history| else PromptHistory;
      && |ms| == k + 2
      && ms[0] == Message("system", systemBlock)
      && ms[|ms| - 1] == Message("user", userInput)
      && forall i :: 1 <= i <= k ==> ms[i] == AsMessage(history[|history| - k + i - 1])
  {
  }

  /** The message assembly in `build_prompt`, as the loop it is written as. */
  method BuildMessages(systemBlock: string, history: seq<HistoryEntry>, userInput: string)
    returns (ms: seq<Message>)
    ensures ms == Messages(systemBlock, history, userInput)
  {
    ms := [Message("system", systemBlock)];
    var recent := LastN(history, PromptHistory);
    var i := 0;
    while i < |recent|
      invariant 0 <= i <= |recent|
      invariant |ms| == i + 1 && ms[0] == Message("system", systemBlock)
      invariant forall j :: 0 <= j < i ==> ms[j + 1] == AsMessage(recent[j])
    {
      ms := ms + [AsMessage(recent[i])];
      i := i + 1;
    }
    ms := ms + [Message("user", userInput)];
  }

  /** The fixed prompt prefix. */
  const Header := "<|begin_of_text|><|start_header_id|>system<|end_header_id|>\n\n"

  /** The end-of-turn marker. */
  const Eot := "<|eot_id|>"

  /** The role label a non-system message is rendered with. */
  function RoleTag(role: string): (t: string)
    ensures t == "user" <==> role == "user"
    ensures t == "user" || t == "assistant"
  {
    if role == "user" then "user" else "assistant"
  }

  /** One non-system message as a turn of the prompt. */
  function Rendered(m: Message): string {
    "<|start_header_id|>" + RoleTag(m.role) + "<|end_header_id|>\n\n" + m.content + Eot
  }

  /** The content of the first system message, if there is one. */
  function FirstSystem(ms: seq<Message>): (c: Option<string>)
    ensures c.None? <==> forall i :: 0 <= i < |ms| ==> ms[i].role != "system"
    ensures c.Some? ==> exists i :: (0 <= i < |ms| && ms[i].role == "system" && ms[i].content == c.value
      && forall j :: 0 <= j < i ==> ms[j].role != "system")
  {
    if ms == [] then None
    else if ms[0].role == "system" then assert ms[0].role == "system"; Some(ms[0].content)
    else
      var c := FirstSystem(ms[1..]);
      assert forall i :: 0 < i < |ms| ==> ms[i] == ms[1..][i - 1];
      if c.Some? then
        var k :| 0 <= k < |ms[1..]| && ms[1..][k].role == "system" && ms[1..][k].content == c.value
          && forall j :: 0 <= j < k ==> ms[1..][j].role != "system";
        assert ms[k + 1].role == "system" && ms[k + 1].content == c.value;
        c
      else c
  }

  /** The system part of the prompt: the first system message and its end marker. */
  function SystemPart(ms: seq<Message>): string {
    match FirstSystem(ms)
    case None => ""
    case Some(c) => c + Eot
  }

  /** What one message contributes to the turns: nothing for a system message. */
  function Turn(m: Message): string {
    if m.role == "system" then "" else Rendered(m)
  }

  /** The concatenation of `f` over the messages, in order. */
  function Joined(ms: seq<Message>, f: Message -> string): string {
    if ms == [] then "" else Joined(ms[..|ms| - 1], f) + f(ms[|ms| - 1])
  }

  /** One more message adds its part at the end. */
  lemma JoinedSnoc(ms: seq<Message>, m: Message, f: Message -> string)
    ensures Joined(ms + [m], f) == Joined(ms, f) + f(m)
  {
    assert (ms + [m])[..|ms|] == ms;
  }

  /** The turns of the prompt: every non-system message, in order. */
  function Body(ms: seq<Message>): string {
    Joined(ms, Turn)
  }

  /** The prompt `_wrap_for_model` builds. */
  function Wrapped(ms: seq<Message>): string {
    Header + SystemPart(ms) + Body(ms)
  }

  /** `_wrap_for_model`, as the buffer-building loop it is written as. */
  method WrapForModel(messages: seq<Message>) returns (prompt: string)
    ensures prompt == Wrapped(messages)
  {
    prompt := Header;
    var sys := FirstSystem(messages);
    if sys.Some? {
      prompt := prompt + sys.value;
      prompt := prompt + Eot;
      ConcatAssoc(Header, sys.value, Eot);
    }
    ghost var start := prompt;
    assert start == Header + SystemPart(messages);
    var i := 0;
    assert messages[..0] == [];
    while i < |messages|
      invariant 0 <= i <= |messages|
      invariant prompt == start + Body(messages[..i])
    {
      var m := messages[i];
      assert messages[..i + 1] == messages[..i] + [m];
      JoinedExtend(start, messages[..i], m, Turn);
      if m.role != "system" {
        prompt := prompt + Rendered(m);
      }
      i := i + 1;
    }
    assert messages[..|messages|] == messages;
  }

  /** Every prompt starts with the fixed header. */
  lemma WrappedStartsWithHeader(ms: seq<Message>)
    ensures |Wrapped(ms)| >= |Header| && Wrapped(ms)[..|Header|] == Header
  {
    ConcatAssoc(Header, SystemPart(ms), Body(ms));
  }

  /** Joining one more message extends a prompt by that message's part. */
  lemma JoinedExtend(start: string, pre: seq<Message>, m: Message, f: Message -> string)
    ensures start + Joined(pre + [m], f) == (start + Joined(pre, f)) + f(m)
  {
    JoinedSnoc(pre, m, f);
    ConcatAssoc(start, Joined(pre, f), f(m));
  }

  /** Replacing a message by one with the same part leaves the join alone. */
  lemma {:induction false} JoinedReplace(ms: seq<Message>, i: int, x: Message, f: Message -> string)
    requires 0 <= i < |ms| && f(ms[i]) == f(x)
    ensures Joined(ms[i := x], f) == Joined(ms, f)
    decreases |ms|
  {
    var ms' := ms[i := x];
    assert ms'[..|ms| - 1] == if i < |ms| - 1 then ms[..|ms| - 1][i := x] else ms[..|ms| - 1];
    if i < |ms| - 1 {
      JoinedReplace(ms[..|ms| - 1], i, x, f);
    }
  }

  /** String concatenation is associative. */
  lemma ConcatAssoc(a: string, b: string, c: string)
    ensures (a + b) + c == a + (b + c)
  {
  }

  /** Joining maps concatenation of message lists to concatenation of strings. */
  lemma {:induction false} JoinedAppend(a: seq<Message>, b: seq<Message>, f: Message -> string)
    ensures Joined(a + b, f) == Joined(a, f) + Joined(b, f)
    decreases |b|
  {
    if b == [] {
      assert a + b == a;
    } else {
      var b', x := b[..|b| - 1], b[|b| - 1];
      assert b == b' + [x];
      assert a + b == (a + b') + [x];
      JoinedAppend(a, b', f);
      JoinedSnoc(a + b', x, f);
      JoinedSnoc(b', x, f);
    }
  }

  /** The turns of two message lists in a row are the turns of each, in a row. */
  lemma BodyAppend(a: seq<Message>, b: seq<Message>)
    ensures Body(a + b) == Body(a) + Body(b)
  {
    JoinedAppend(a, b, Turn);
  }

  /** A single message contributes its rendering, or nothing if it is a system
      message. */
  lemma BodySingle(m: Message)
    ensures Body([m]) == if m.role == "system" then "" else Rendered(m)
  {
    JoinedSnoc([], m, Turn);
    assert [] + [m] == [m];
  }

  /** Only the first system message reaches the prompt: replacing the content
      of any later system message changes nothing. */
  lemma LaterSystemIgnored(ms: seq<Message>, i: int, c: string)
    requires 0 <= i < |ms| && ms[i].role == "system"
    requires exists j :: 0 <= j < i && ms[j].role == "system"
    ensures Wrapped(ms[i := Message("system", c)]) == Wrapped(ms)
  {
    var ms' := ms[i := Message("system", c)];
    var j :| 0 <= j < i && ms[j].role == "system";
    FirstSystemPrefix(ms, ms', j);
    assert Turn(ms[i]) == "" == Turn(Message("system", c));
    JoinedReplace(ms, i, Message("system", c), Turn);
  }

  /** Two message lists that agree up to and including a system message have
      the same first system message. */
  lemma {:induction false} FirstSystemPrefix(a: seq<Message>, b: seq<Message>, j: int)
    requires 0 <= j < |a| && j < |b| && a[..j + 1] == b[..j + 1] && a[j].role == "system"
    ensures FirstSystem(a) == FirstSystem(b)
    decreases j
  {
    assert a[0] == a[..j + 1][0] && b[0] == b[..j + 1][0];
    if a[0].role != "system" {
      assert a[1..][..j] == a[..j + 1][1..] && b[1..][..j] == b[..j + 1][1..];
      FirstSystemPrefix(a[1..], b[1..], j - 1);
    }
  }

  /** The prompt for an assembled message list: the header, the system block
      with its end marker, the history's non-system turns, and the user's turn
      last. */
  lemma PromptShape(systemBlock: string, history: seq<HistoryEntry>, userInput: string)
    ensures Wrapped(Messages(systemBlock, history, userInput))
      == Header + systemBlock + Eot + Body(Recent(history)) + Rendered(Message("user", userInput))
  {
    MessagesSystemPart(systemBlock, history, userInput);
    MessagesBody(systemBlock, history, userInput);
    ConcatAssoc(Header, systemBlock, Eot);
    ConcatAssoc(Header + systemBlock + Eot, Body(Recent(history)), Rendered(Message("user", userInput)));
  }

  /** The assembled list's system part is the system block. */
  lemma MessagesSystemPart(systemBlock: string, history: seq<HistoryEntry>, userInput: string)
    ensures SystemPart(Messages(systemBlock, history, userInput)) == systemBlock + Eot
  {
    assert Messages(systemBlock, history, userInput)[0] == Message("system", systemBlock);
  }

  /** The assembled list's turns are the recent history's, then the user's. */
  lemma MessagesBody(systemBlock: string, history: seq<HistoryEntry>, userInput: string)
    ensures Body(Messages(systemBlock, history, userInput)) == Body(Recent(history)) + Rendered(Message("user", userInput))
  {
    var mid := Recent(history);
    var sys := Message("system", systemBlock);
    var user := Message("user", userInput);
    BodyAppend([sys] + mid, [user]);
    BodyAppend([sys], mid);
    BodySingle(sys);
    BodySingle(user);
    assert "" + Body(mid) == Body(mid);
  }

  // ---------- Output filtering ----------

  /** The name's two spellings the filter rewrites, and what they become. */
  const LatinName := "Beliytoporik"
  const CyrillicName := "Белийтопорик"
  const NameReplacement := "beliytoporik"

  /** What the filter answers instead of Latin text. */
  const Noise := "Шум... Я не понимаю эти знаки... Мой мозг горит."

  /** A case-insensitive match of `p` in `s` at `i`. */
  predicate MatchAt(s: string, p: string, i: int) {
    0 <= i && i + |p| <= |s| && LowerStr(s[i..i + |p|]) == LowerStr(p)
  }

  /** `re.sub(p, r, s, flags=re.IGNORECASE)` for a literal pattern: matches are
      replaced left to right, and scanning resumes after each replacement.
      Case-insensitivity is `Lower`'s (Latin and basic Cyrillic). */
  function ReplaceAll(s: string, p: string, r: string): string
    requires |p| > 0
    decreases |s|
  {
    if s == [] then ""
    else if MatchAt(s, p, 0) then r + ReplaceAll(s[|p|..], p, r)
    else [s[0]] + ReplaceAll(s[1..], p, r)
  }

  /** Without a match the text is left as it is. */
  lemma {:induction false} ReplaceAllNoMatch(s: string, p: string, r: string)
    requires |p| > 0
    requires forall i :: !MatchAt(s, p, i)
    ensures ReplaceAll(s, p, r) == s
    decreases |s|
  {
    if s != [] {
      assert !MatchAt(s, p, 0);
      forall i ensures !MatchAt(s[1..], p, i) {
        if MatchAt(s[1..], p, i) {
          assert s[1..][i..i + |p|] == s[i + 1..i + 1 + |p|];
          assert MatchAt(s, p, i + 1);
        }
      }
      ReplaceAllNoMatch(s[1..], p, r);
    }
  }

  /** Any match makes the replacement appear in the result. */
  lemma {:induction false} ReplaceAllIntroduces(s: string, p: string, r: string, i: int)
    requires |p| > 0 && MatchAt(s, p, i)
    ensures Contains(ReplaceAll(s, p, r), r)
    decreases |s|
  {
    var t := ReplaceAll(s, p, r);
    if MatchAt(s, p, 0) {
      assert OccursAt(t, r, 0);
    } else {
      assert i > 0;
      assert s[1..][i - 1..i - 1 + |p|] == s[i..i + |p|];
      ReplaceAllIntroduces(s[1..], p, r, i - 1);
      var rest := ReplaceAll(s[1..], p, r);
      var k :| OccursAt(rest, r, k);
      assert t == [s[0]] + rest;
      assert t[k + 1..k + 1 + |r|] == rest[k..k + |r|];
      assert OccursAt(t, r, k + 1);
    }
  }

  /** Replacing the Latin spelling by its lower-case form leaves the
      lower-cased text as it was. */
  lemma {:induction false} ReplaceAllLowerInvariant(s: string, p: string, r: string)
    requires |p| > 0 && |r| == |p| && LowerStr(r) == LowerStr(p)
    ensures LowerStr(ReplaceAll(s, p, r)) == LowerStr(s)
    decreases |s|
  {
    if s != [] {
      if MatchAt(s, p, 0) {
        ReplaceAllLowerInvariant(s[|p|..], p, r);
        assert s == s[..|p|] + s[|p|..];
        LowerStrAppend(s[..|p|], s[|p|..]);
        LowerStrAppend(r, ReplaceAll(s[|p|..], p, r));
      } else {
        ReplaceAllLowerInvariant(s[1..], p, r);
        assert s == [s[0]] + s[1..];
        LowerStrAppend([s[0]], s[1..]);
        LowerStrAppend([s[0]], ReplaceAll(s[1..], p, r));
      }
    }
  }

  /** Lower-casing commutes with concatenation. */
  lemma LowerStrAppend(a: string, b: string)
    ensures LowerStr(a + b) == LowerStr(a) + LowerStr(b)
  {
    assert forall i :: 0 <= i < |a| ==> (a + b)[i] == a[i];
    assert forall i :: |a| <= i < |a| + |b| ==> (a + b)[i] == b[i - |a|];
  }

  /** Five ASCII letters in a row start at `i`. */
  predicate LatinRunAt(t: string, i: int) {
    0 <= i && i + 5 <= |t| && forall j :: i <= j < i + 5 ==> IsAsciiLetter(t[j])
  }

  /** `re.search(r'[A-Za-z]{5,}', t)` succeeds. */
  predicate HasLatinRun(t: string)
    ensures HasLatinRun(t) <==> exists i :: LatinRunAt(t, i)
    decreases |t|
  {
    if |t| < 5 then
      assert forall i :: !LatinRunAt(t, i);
      false
    else if LatinRunAt(t, 0) then true
    else
      assert forall i :: LatinRunAt(t[1..], i) ==> LatinRunAt(t, i + 1);
      assert forall i :: LatinRunAt(t, i) ==> i == 0 || LatinRunAt(t[1..], i - 1);
      HasLatinRun(t[1..])
  }

  /** The text after both name substitutions. */
  function Substituted(text: string): string {
    ReplaceAll(ReplaceAll(text, LatinName, NameReplacement), CyrillicName, NameReplacement)
  }

  /** The filter's test: a five-letter Latin run, and the name nowhere in the
      lower-cased text. */
  predicate Blocked(t: string) {
    HasLatinRun(t) && !Contains(LowerStr(t), NameReplacement)
  }

  /** `clean_output`: whatever survives is either free of five-letter Latin
      runs or carries the name; text without Latin runs is only stripped. */
  function CleanOutput(text: string): (r: string)
    ensures Blocked(Substituted(text)) ==> r == Noise
    ensures !Blocked(Substituted(text)) ==> r == Strip(Substituted(text))
    ensures !HasLatinRun(Substituted(text)) ==> r == Strip(Substituted(text))
    ensures r == Noise || !HasLatinRun(r) || Contains(LowerStr(r), NameReplacement)
  {
    var t := Substituted(text);
    StripKeepsRuns(t);
    if Blocked(t) then Noise else Strip(t)
  }

  /** Stripping adds no Latin run, and keeps every occurrence of the name in
      the lower-cased text, since the name has no whitespace in it. */
  lemma StripKeepsRuns(t: string)
    ensures HasLatinRun(Strip(t)) ==> HasLatinRun(t)
    ensures Contains(LowerStr(t), NameReplacement) ==> Contains(LowerStr(Strip(t)), NameReplacement)
  {
    if HasLatinRun(Strip(t)) {
      var j :| LatinRunAt(Strip(t), j);
      StripLatinRun(t, j);
    }
    if Contains(LowerStr(t), NameReplacement) {
      var i :| OccursAt(LowerStr(t), NameReplacement, i);
      StripName(t, i);
    }
  }

  lemma StripLatinRun(t: string, j: int)
    requires LatinRunAt(Strip(t), j)
    ensures LatinRunAt(t, LeadingSpaces(t) + j)
  {
    var r := Strip(t);
    var a := LeadingSpaces(t);
    assert r == t[a..a + |r|];
    forall w | a + j <= w < a + j + 5
      ensures IsAsciiLetter(t[w])
    {
      assert t[w] == r[w - a];
    }
  }

  lemma NameHasNoSpace()
    ensures forall q :: 0 <= q < |NameReplacement| ==> !IsSpace(NameReplacement[q])
  {
  }

  /** Where the lower-cased text shows the name, the text has no whitespace. */
  lemma NameUnspaced(t: string, i: int)
    requires OccursAt(LowerStr(t), NameReplacement, i)
    ensures forall q :: i <= q < i + |NameReplacement| ==> !IsSpace(t[q])
  {
    NameHasNoSpace();
    forall q | i <= q < i + |NameReplacement|
      ensures !IsSpace(t[q])
    {
      assert LowerStr(t)[q] == NameReplacement[q - i];
      LowerKeepsSpace(t[q]);
    }
  }

  lemma LowerKeepsSpace(c: char)
    ensures IsSpace(c) ==> Lower(c) == c
  {
  }

  lemma StripName(t: string, i: int)
    requires OccursAt(LowerStr(t), NameReplacement, i)
    ensures OccursAt(LowerStr(Strip(t)), NameReplacement, i - LeadingSpaces(t))
  {
    var n := |NameReplacement|;
    NameUnspaced(t, i);
    assert !IsSpace(t[i]) && !IsSpace(t[i + n - 1]);
    SliceKeepsName(t, Strip(t), LeadingSpaces(t), i);
  }

  /** An occurrence of the name inside the slice `r == t[a..]` is one of `r`. */
  lemma SliceKeepsName(t: string, r: string, a: int, i: int)
    requires 0 <= a <= i && i + |NameReplacement| <= a + |r| <= |t| && r == t[a..a + |r|]
    requires OccursAt(LowerStr(t), NameReplacement, i)
    ensures OccursAt(LowerStr(r), NameReplacement, i - a)
  {
    var n := |NameReplacement|;
    var lr := LowerStr(r);
    forall q | 0 <= q < n
      ensures lr[i - a + q] == NameReplacement[q]
    {
      assert r[i - a + q] == t[i + q];
      assert LowerStr(t)[i + q] == NameReplacement[q];
    }
    assert lr[i - a..i - a + n] == NameReplacement;
  }

  /** Lower-casing commutes with slicing. */
  lemma LowerSlice(s: string, i: int, j: int)
    requires 0 <= i <= j <= |s|
    ensures LowerStr(s)[i..j] == LowerStr(s[i..j])
  {
  }

  /** The name's Latin spelling lower-cases to the replacement, which is
      already lower case. */
  lemma NameLowered()
    ensures LowerStr(LatinName) == NameReplacement
    ensures LowerStr(NameReplacement) == NameReplacement
  {
    assert LowerStr(LatinName)[0] == 'b';
    assert LowerStr(LatinName)[1..] == LatinName[1..];
    assert LowerStr(NameReplacement) == NameReplacement;
  }

  /** The name occurs in the lower-cased text exactly where its Latin
      spelling matches case-insensitively. */
  lemma NameInLowered(s: string)
    ensures Contains(LowerStr(s), NameReplacement) <==> exists i :: MatchAt(s, LatinName, i)
  {
    NameLowered();
    if Contains(LowerStr(s), NameReplacement) {
      var i :| OccursAt(LowerStr(s), NameReplacement, i);
      LowerSlice(s, i, i + |NameReplacement|);
      assert MatchAt(s, LatinName, i);
    }
    if exists i :: MatchAt(s, LatinName, i) {
      var i :| MatchAt(s, LatinName, i);
      LowerSlice(s, i, i + |LatinName|);
      assert OccursAt(LowerStr(s), NameReplacement, i);
    }
  }

  /** A text without ASCII letters and without the Cyrillic spelling of the
      name comes back only stripped. */
  lemma CleanOutputKeepsRussian(text: string)
    requires forall i :: 0 <= i < |text| ==> !IsAsciiLetter(text[i])
    requires forall i :: !MatchAt(text, CyrillicName, i)
    ensures CleanOutput(text) == Strip(text)
  {
    NameLowered();
    forall i | 0 <= i && i + |LatinName| <= |text|
      ensures !MatchAt(text, LatinName, i)
    {
      assert LowerStr(text[i..i + |LatinName|])[0] == Lower(text[i]) != 'b';
    }
    ReplaceAllNoMatch(text, LatinName, NameReplacement);
    ReplaceAllNoMatch(text, CyrillicName, NameReplacement);
    forall i | 0 <= i && i + 5 <= |text|
      ensures !LatinRunAt(text, i)
    {
      assert !IsAsciiLetter(text[i]);
    }
  }

  /** A text with five Latin letters in a row and neither spelling of the
      name is answered with the noise phrase. */
  lemma CleanOutputBlocksLatin(text: string, k: int)
    requires LatinRunAt(text, k)
    requires forall i :: !MatchAt(text, LatinName, i)
    requires forall i :: !MatchAt(text, CyrillicName, i)
    ensures CleanOutput(text) == Noise
  {
    ReplaceAllNoMatch(text, LatinName, NameReplacement);
    ReplaceAllNoMatch(text, CyrillicName, NameReplacement);
    NameInLowered(text);
  }

  /** A text that mentions the name in its Latin spelling, in any case, is
      never blocked, so it comes back only substituted and stripped. */
  lemma CleanOutputSparesName(text: string, k: int)
    requires MatchAt(text, LatinName, k)
    requires forall i :: !MatchAt(ReplaceAll(text, LatinName, NameReplacement), CyrillicName, i)
    ensures CleanOutput(text) == Strip(Substituted(text))
  {
    var t1 := ReplaceAll(text, LatinName, NameReplacement);
    ReplaceAllIntroduces(text, LatinName, NameReplacement, k);
    ReplaceAllNoMatch(t1, CyrillicName, NameReplacement);
    var i :| OccursAt(t1, NameReplacement, i);
    NameLowered();
    LowerSlice(t1, i, i + |NameReplacement|);
    assert OccursAt(LowerStr(t1), NameReplacement, i);
  }
}
