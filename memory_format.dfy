/**
 * The two pure renderers of memory items: the context block injected into
 * the prompt (`formatMemoriesForPrompt`) and the listing printed by the
 * `list` command (`memoryOverview`).
 */
module MemoryFormat {
  import opened Wrappers
  import opened JsText

  /**
   * A string field of a record as JavaScript sees it: missing (`undefined`),
   * explicitly `null`, or a string.
   */
  datatype Field = Undefined | Null | Text(value: string)

  /** A memory record as the store returns it; `memory` and `updatedAt` may be missing or null. */
  datatype MemoryItem = MemoryItem(id: string, memory: Field, updatedAt: Field)

  const NoContext := "No relevant memories found for this context."
  const ContextHeader := "Context from previous interactions:"
  const Placeholder := "N/A"
  const NoMemories := "No memories found."
  const TimestampLabel := "  Timestamp: "

  /**
   * A template-literal hole `${x}`: a string is inserted as it is, a missing
   * value as `undefined`, and `null` as `null`.
   */
  function Show(x: Field): (r: string)
    ensures x.Text? ==> r == x.value
    ensures x.Undefined? ==> r == "undefined"
    ensures x.Null? ==> r == "null"
  {
    match x
    case Undefined => "undefined"
    case Null => "null"
    case Text(v) => v
  }

  /** Whether the item has content that `mem.memory || "N/A"` keeps: a non-empty string, not `undefined` or `null`. */
  predicate HasContent(m: MemoryItem) {
    m.memory.Text? && m.memory.value != ""
  }

  /** One prompt bullet; missing or empty content becomes the placeholder. */
  function Bullet(m: MemoryItem): (r: string)
    ensures |r| >= 2 && r[..2] == "- "
    ensures !HasContent(m) ==> r == "- N/A"
    ensures HasContent(m) ==> r[2..] == m.memory.value
  {
    "- " + if HasContent(m) then m.memory.value else Placeholder
  }

  /** `memories.map(bullet)`: one bullet per item, in order. */
  function Bullets(items: seq<MemoryItem>): (r: seq<string>)
    ensures |r| == |items|
    ensures forall k | 0 <= k < |items| :: r[k] == Bullet(items[k])
  {
    seq(|items|, k requires 0 <= k < |items| => Bullet(items[k]))
  }

  /**
   * The prompt context: the sentinel exactly when the list is absent or empty;
   * otherwise the header line followed by the bullets.
   */
  function FormatMemoriesForPrompt(memories: Option<seq<MemoryItem>>): (r: string)
    ensures r == NoContext <==> memories.None? || memories.value == []
    ensures memories.Some? && memories.value != [] ==>
      |r| > |ContextHeader| && r[..|ContextHeader| + 1] == ContextHeader + "\n"
  {
    if memories.None? || |memories.value| == 0 then NoContext
    else
      var r := ContextHeader + "\n" + Join(Bullets(memories.value), "\n");
      assert r[0] == 'C' != NoContext[0];
      r
  }

  /** No item content holds a newline (so that each bullet is exactly one line). */
  predicate SingleLineContents(items: seq<MemoryItem>) {
    forall k | 0 <= k < |items| :: items[k].memory.Text? ==> '\n' !in items[k].memory.value
  }

  /**
   * Read back line by line, the prompt context is the header and then exactly
   * one bullet per item in input order: nothing reordered, dropped or repeated.
   */
  lemma PromptLines(items: seq<MemoryItem>)
    requires items != [] && SingleLineContents(items)
    ensures Lines(FormatMemoriesForPrompt(Some(items))) == [ContextHeader] + Bullets(items)
  {
    var bullets := Bullets(items);
    forall k | 0 <= k < |bullets| ensures '\n' !in bullets[k] {
      if HasContent(items[k]) {
        assert bullets[k] == "- " + items[k].memory.value;
      } else {
        assert bullets[k] == "- N/A";
      }
    }
    LinesJoin(bullets);
    LinesOfLine(ContextHeader);
    LinesConcat(ContextHeader, Join(bullets, "\n"));
  }

  /** One more item adds exactly one bullet, at the end. */
  lemma PromptAppend(items: seq<MemoryItem>, x: MemoryItem)
    requires items != []
    ensures FormatMemoriesForPrompt(Some(items + [x])) ==
      FormatMemoriesForPrompt(Some(items)) + "\n" + Bullet(x)
  {
    var head, joined, last := ContextHeader + "\n", Join(Bullets(items), "\n"), Bullet(x);
    assert Bullets(items + [x]) == Bullets(items) + [last];
    JoinAppend(Bullets(items), last, "\n");
    assert FormatMemoriesForPrompt(Some(items)) == head + joined;
    assert FormatMemoriesForPrompt(Some(items + [x])) == head + (joined + "\n" + last);
    Regroup(head, joined, "\n", last);
  }

  /** Regrouping a concatenation, kept apart so that it is proved without the formatters in scope. */
  lemma Regroup(a: string, b: string, c: string, d: string)
    ensures a + (b + c + d) == a + b + c + d
  {
  }

  /** One listing entry: content, an indented timestamp line, and a trailing newline. */
  function Entry(m: MemoryItem): string {
    Show(m.memory) + "\n" + TimestampLabel + Show(m.updatedAt) + "\n"
  }

  function Entries(items: seq<MemoryItem>): (r: seq<string>)
    ensures |r| == |items|
    ensures forall k | 0 <= k < |items| :: r[k] == Entry(items[k])
  {
    seq(|items|, k requires 0 <= k < |items| => Entry(items[k]))
  }

  /**
   * The listing: the sentinel exactly when the list is absent or empty;
   * otherwise the entries joined by newlines, which ends in a newline. A
   * single item gives exactly its entry (the base case that
   * `OverviewAppend` extends one item at a time).
   */
  function MemoryOverview(memories: Option<seq<MemoryItem>>): (r: string)
    ensures r == NoMemories <==> memories.None? || memories.value == []
    ensures memories.Some? && memories.value != [] ==> r != [] && r[|r| - 1] == '\n'
    ensures memories.Some? && |memories.value| == 1 ==> r == Entry(memories.value[0])
  {
    if memories.None? || |memories.value| == 0 then NoMemories
    else
      var entries := Entries(memories.value);
      if |entries| == 1 then
        assert entries[0][|entries[0]| - 1] == '\n' != NoMemories[|NoMemories| - 1];
        entries[0]
      else
        JoinAppend(entries[..|entries| - 1], entries[|entries| - 1], "\n");
        assert entries[..|entries| - 1] + [entries[|entries| - 1]] == entries;
        Join(entries, "\n")
  }

  /** Content and timestamp of every item hold no newline. */
  predicate SingleLineFields(items: seq<MemoryItem>) {
    forall k | 0 <= k < |items| ::
      && '\n' !in Show(items[k].memory)
      && '\n' !in Show(items[k].updatedAt)
  }

  /** The three lines each item contributes to the listing. */
  function EntryLines(items: seq<MemoryItem>): seq<string> {
    if items == [] then []
    else [Show(items[0].memory), TimestampLabel + Show(items[0].updatedAt), ""] + EntryLines(items[1..])
  }

  lemma EntryLinesOfOne(m: MemoryItem)
    requires '\n' !in Show(m.memory) && '\n' !in Show(m.updatedAt)
    ensures Lines(Entry(m)) == [Show(m.memory), TimestampLabel + Show(m.updatedAt), ""]
  {
    var content, stamp := Show(m.memory), TimestampLabel + Show(m.updatedAt);
    assert '\n' !in TimestampLabel;
    assert Entry(m) == content + "\n" + (stamp + "\n" + "");
    LinesConcat(content, stamp + "\n" + "");
    LinesConcat(stamp, "");
    LinesOfLine(content);
    LinesOfLine(stamp);
  }

  /**
   * Read back line by line, the listing is, for each item in order, its
   * content, its timestamp line and an empty line.
   */
  lemma {:induction false} OverviewLines(items: seq<MemoryItem>)
    requires items != [] && SingleLineFields(items)
    ensures Lines(MemoryOverview(Some(items))) == EntryLines(items)
  {
    EntryLinesOfOne(items[0]);
    if |items| > 1 {
      var rest := items[1..];
      assert Entries(items)[1..] == Entries(rest);
      assert SingleLineFields(rest) by {
        forall k | 0 <= k < |rest| ensures '\n' !in Show(rest[k].memory) && '\n' !in Show(rest[k].updatedAt) {
          assert rest[k] == items[k + 1];
        }
      }
      OverviewLines(rest);
      LinesConcat(Entry(items[0]), Join(Entries(rest), "\n"));
    }
  }

  /** One more item adds exactly one entry, at the end, after a newline. */
  lemma OverviewAppend(items: seq<MemoryItem>, x: MemoryItem)
    requires items != []
    ensures MemoryOverview(Some(items + [x])) == MemoryOverview(Some(items)) + "\n" + Entry(x)
  {
    assert Entries(items + [x]) == Entries(items) + [Entry(x)];
    JoinAppend(Entries(items), Entry(x), "\n");
  }

  /** A single item gives the header and its one bullet. */
  lemma PromptOfOne(m: MemoryItem)
    ensures FormatMemoriesForPrompt(Some([m])) == ContextHeader + "\n" + Bullet(m)
  {
    assert Bullets([m]) == [Bullet(m)];
  }

  /**
   * Two items with content: a header line followed by exactly two bullets,
   * each prefixed "- ", in input order.
   */
  lemma PromptOfTwo(a: MemoryItem, b: MemoryItem)
    requires HasContent(a) && HasContent(b)
    ensures FormatMemoriesForPrompt(Some([a, b])) ==
      "Context from previous interactions:\n- " + a.memory.value + "\n- " + b.memory.value
  {
    PromptOfOne(a);
    PromptAppend([a], b);
    assert [a] + [b] == [a, b];
    var va, vb := a.memory.value, b.memory.value;
    assert Bullet(a) == "- " + va;
    assert Bullet(b) == "- " + vb;
    assert ContextHeader + "\n" + "- " == "Context from previous interactions:\n- ";
    assert FormatMemoriesForPrompt(Some([a, b])) == ContextHeader + "\n" + ("- " + va) + "\n" + ("- " + vb);
  }
}
