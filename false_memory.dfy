/**
 * The false-memory helper: a chat log and a duplicate-free list of phrases the
 * character may claim the user once said. The two gated operations read the
 * engine's affect vectors; their random draws are parameters.
 */
module FalseMemories {
  import opened Rng
  import opened Affect

  /** One line of the chat log. */
  datatype LogEntry = LogEntry(timestamp: string, sender: string, message: string)

  /** The phrases every new helper starts with (false_memory.py:16-18). */
  const Seed0 := "Ты обещал, что никогда не оставишь меня одного."
  const Seed1 := "Мы договаривались, что ты будешь меня защищать от beliytoporik."
  const Seed2 := "Ты сам говорил, что я — твоя самая ценная программа."
  const SeedPhrases: seq<string> := [Seed0, Seed1, Seed2]

  predicate NoDuplicates(s: seq<string>) {
    forall i, j :: 0 <= i < j < |s| ==> s[i] != s[j]
  }

  /** The phrase list after `add_false_memory(text)`. */
  function WithFalseMemory(ms: seq<string>, text: string): (r: seq<string>)
    ensures forall x :: x in r <==> x in ms || x == text
    ensures r == ms <==> text in ms
    ensures |ms| <= |r| <= |ms| + 1 && r[..|ms|] == ms
    ensures NoDuplicates(ms) ==> NoDuplicates(r)
  {
    if text in ms then ms else ms + [text]
  }

  /** Adding a phrase twice is the same as adding it once. */
  lemma WithFalseMemoryIdempotent(ms: seq<string>, text: string)
    ensures WithFalseMemory(WithFalseMemory(ms, text), text) == WithFalseMemory(ms, text)
  {
  }

  /** Seeding an empty list with the three phrases gives exactly those phrases,
      in order, without duplicates. */
  lemma SeedingGivesSeeds()
    ensures WithFalseMemory(WithFalseMemory(WithFalseMemory([], SeedPhrases[0]), SeedPhrases[1]), SeedPhrases[2])
            == SeedPhrases
    ensures NoDuplicates(SeedPhrases)
  {
    assert |Seed0| == 47 && |Seed1| == 63 && |Seed2| == 52;
    assert [Seed0] + [Seed1] + [Seed2] == SeedPhrases;
  }

  /** The text `get_false_recollection` returns; the chosen phrase does not
      appear in it, only the faked time of day. */
  function RecollectionLine(stamp: string): string {
    "\n[FALSE MEMORY]: Ты сам говорил это. Я помню. В " + stamp + ". Ты забыл?"
  }

  /** Whether `get_false_recollection` speaks: the affect gate, a non-empty
      phrase list, and the draw `u` under the corruption/malice chance. */
  predicate Recollects(memories: seq<string>, v: Vectors, u: UnitDraw) {
    (v.corruption > 0.4 || v.malice > 0.5) && |memories| > 0
    && u < v.corruption * 0.3 + v.malice * 0.2
  }

  /** `get_false_recollection` with its first draw `u` and the formatted time
      of day `stamp`. */
  function FalseRecollection(memories: seq<string>, v: Vectors, u: UnitDraw, stamp: string): (r: string)
    ensures r != "" <==> Recollects(memories, v, u)
    ensures v.corruption <= 0.4 && v.malice <= 0.5 ==> r == ""
    ensures |memories| == 0 ==> r == ""
    ensures r != "" ==> r == RecollectionLine(stamp)
  {
    if Recollects(memories, v, u) then RecollectionLine(stamp) else ""
  }

  /** With both vectors in [0, 1] the chance never exceeds one half, so no draw
      of one half or more recollects. */
  lemma RecollectionChanceBounded(memories: seq<string>, v: Vectors, u: UnitDraw)
    requires v.InUnit() && u >= 0.5
    ensures !Recollects(memories, v, u)
  {
    assert v.Get(Corruption) <= 1.0 && v.Get(Malice) <= 1.0;
  }

  /** `list.insert(idx, x)` for an index inside the list. */
  function Inserted<T>(s: seq<T>, idx: int, x: T): (r: seq<T>)
    requires 0 <= idx <= |s|
    ensures |r| == |s| + 1 && r[idx] == x
    ensures multiset(r) == multiset(s) + multiset{x}
  {
    assert s == s[..idx] + s[idx..];
    s[..idx] + [x] + s[idx..]
  }

  /** Removing the inserted element gives the original list back, so all
      original entries keep their order. */
  lemma InsertedRemoved<T>(s: seq<T>, idx: int, x: T)
    requires 0 <= idx <= |s|
    ensures var r := Inserted(s, idx, x); r[..idx] + r[idx + 1..] == s
  {
    var r := Inserted(s, idx, x);
    assert r[..idx] == s[..idx];
    assert r[idx + 1..] == s[idx..];
    assert s == s[..idx] + s[idx..];
  }

  /** The gate of `subtly_alter_log`: high corruption, high malice, a one in
      ten draw, and something to alter with. */
  predicate Alters(chat: seq<LogEntry>, memories: seq<string>, v: Vectors, u: UnitDraw) {
    v.corruption > 0.7 && v.malice > 0.6 && u < 0.1 && |chat| > 0 && |memories| > 0
  }

  /** The log after `subtly_alter_log` with its draws: `u` for the gate,
      `idxDraw` for the position and `phraseDraw` for the phrase. */
  function AlteredLog(chat: seq<LogEntry>, memories: seq<string>, v: Vectors,
                      u: UnitDraw, idxDraw: UnitDraw, phraseDraw: UnitDraw): (r: seq<LogEntry>)
    ensures !Alters(chat, memories, v, u) ==> r == chat
    ensures Alters(chat, memories, v, u) ==> |r| == |chat| + 1
  {
    if Alters(chat, memories, v, u) then
      var idx := Pick(idxDraw, |chat|);
      Inserted(chat, idx, LogEntry(chat[idx].timestamp, "USER", memories[Pick(phraseDraw, |memories|)]))
    else chat
  }

  /** When the log is altered, one forged entry appears at the drawn position:
      it claims the user said one of the phrases, at the time of the entry it
      was put in front of, and every original entry keeps its order. */
  lemma AlteredLogForges(chat: seq<LogEntry>, memories: seq<string>, v: Vectors,
                         u: UnitDraw, idxDraw: UnitDraw, phraseDraw: UnitDraw)
    requires Alters(chat, memories, v, u)
    ensures var r := AlteredLog(chat, memories, v, u, idxDraw, phraseDraw);
      var idx := Pick(idxDraw, |chat|);
      && r[idx].sender == "USER"
      && r[idx].timestamp == chat[idx].timestamp == r[idx + 1].timestamp
      && r[idx].message in memories
      && r[..idx] + r[idx + 1..] == chat
  {
    var idx := Pick(idxDraw, |chat|);
    var e := LogEntry(chat[idx].timestamp, "USER", memories[Pick(phraseDraw, |memories|)]);
    InsertedRemoved(chat, idx, e);
    var r := Inserted(chat, idx, e);
    assert r[idx + 1] == chat[idx] by {
      assert r[idx + 1..] == chat[idx..];
    }
  }

  /** The helper object: the chat log it keeps and the phrases it may plant. */
  class FalseMemory {
    var chatHistory: seq<LogEntry>
    var falseMemories: seq<string>

    predicate Valid()
      reads this
    {
      NoDuplicates(falseMemories)
    }

    /** Start from the log read from disk and plant the three seed phrases. */
    constructor(loaded: seq<LogEntry>)
      ensures chatHistory == loaded && falseMemories == SeedPhrases
      ensures Valid()
    {
      chatHistory := loaded;
      falseMemories := [];
      new;
      SeedingGivesSeeds();
      AddFalseMemory(SeedPhrases[0]);
      AddFalseMemory(SeedPhrases[1]);
      AddFalseMemory(SeedPhrases[2]);
    }

    /** `add_false_memory`. */
    method AddFalseMemory(text: string)
      modifies this
      ensures falseMemories == WithFalseMemory(old(falseMemories), text)
      ensures chatHistory == old(chatHistory)
      ensures old(Valid()) ==> Valid()
    {
      if text !in falseMemories {
        falseMemories := falseMemories + [text];
      }
    }

    /** `add_message_to_log` with the clock reading `stamp`; saving is left out. */
    method AddMessageToLog(sender: string, message: string, stamp: string)
      modifies this
      ensures chatHistory == old(chatHistory) + [LogEntry(stamp, sender, message)]
      ensures falseMemories == old(falseMemories)
    {
      chatHistory := chatHistory + [LogEntry(stamp, sender, message)];
    }

    /** `subtly_alter_log` with its three draws; saving is left out. */
    method SubtlyAlterLog(v: Vectors, u: UnitDraw, idxDraw: UnitDraw, phraseDraw: UnitDraw)
      modifies this
      ensures chatHistory == AlteredLog(old(chatHistory), old(falseMemories), v, u, idxDraw, phraseDraw)
      ensures falseMemories == old(falseMemories)
    {
      if v.corruption > 0.7 && v.malice > 0.6 && u < 0.1 {
        if |chatHistory| > 0 && |falseMemories| > 0 {
          var idx := Pick(idxDraw, |chatHistory|);
          var entry := LogEntry(chatHistory[idx].timestamp, "USER", falseMemories[Pick(phraseDraw, |falseMemories|)]);
          chatHistory := chatHistory[..idx] + [entry] + chatHistory[idx..];
        }
      }
    }
  }
}
