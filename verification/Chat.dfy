/** Chat preprocessing (overlay/vllm/tokenizers/deepseek_v41_encoding.py): tool messages
    merge into user messages, tool results take the order of their calls, and reasoning
    of finished turns is dropped.  Template text is left symbolic. */
module Chat {
  import opened Common

  datatype Role = User | Assistant | Tool | System | Developer | Reminder | SearchResults | OtherRole

  /** A message's content: absent, a string, a list of blocks, or the very list that content_blocks is. */
  datatype Content = Missing | Plain(text: string) | Parts(parts: seq<Block>) | Shared

  datatype Block = Text(text: string) | Image | ToolResult(id: string, body: Content) | Unsupported(kind: string)

  /** calls holds the ids of the tool calls, "" where a call has none. */
  datatype Message = Message(role: Role, content: Content, blocks: Option<seq<Block>>, task: Option<string>,
                             callId: string, calls: seq<string>, reasoning: string, hasTools: bool)

  // ---------------------------------------------------------------- merging

  /** What the content field holds: a shared list is whatever content_blocks has become. */
  function ContentOf(m: Message): Content {
    if !m.content.Shared? then m.content else if m.blocks.Some? then Parts(m.blocks.value) else Missing
  }

  /** The block a tool message becomes. */
  function ToolBlock(m: Message): Block {
    var body := if ContentOf(m).Missing? then Plain("") else ContentOf(m);
    var listed := m.blocks.Some? && m.blocks.value != [] && !m.content.Plain?;
    ToolResult(m.callId, if listed then Parts(m.blocks.value) else body)
  }

  /** The blocks of a user message. */
  function UserBlocks(m: Message): seq<Block> {
    if m.blocks.Some? then m.blocks.value
    else if m.content.Parts? then m.content.parts
    else [Text(if m.content.Plain? then m.content.text else "")]
  }

  function FreshUser(b: Block): Message {
    Message(User, Missing, Some([b]), None, "", [], "", false)
  }

  /** A user message that opens a merged one: list content becomes the blocks, and stays the same list. */
  function Opened(m: Message): Message {
    m.(blocks := Some(UserBlocks(m)), content := if m.blocks.None? && m.content.Parts? then Shared else m.content)
  }

  predicate OpenUser(m: Message) {
    m.role == User && m.blocks.Some?
  }

  function Extend(m: Message, bs: seq<Block>): Message
    requires m.blocks.Some?
  {
    m.(blocks := Some(m.blocks.value + bs))
  }

  /** One pass of the merge loop. */
  function MergeOne(merged: seq<Message>, m: Message): (r: seq<Message>) {
    var n := |merged|;
    if m.role == Tool then
      if n > 0 && OpenUser(merged[n - 1]) then merged[n - 1 := Extend(merged[n - 1], [ToolBlock(m)])]
      else merged + [FreshUser(ToolBlock(m))]
    else if m.role == User then
      if n > 0 && OpenUser(merged[n - 1]) && merged[n - 1].task == None
        then merged[n - 1 := Extend(merged[n - 1], UserBlocks(m))]
      else merged + [Opened(m)]
    else merged + [m]
  }

  function Merged(ms: seq<Message>): seq<Message> {
    if |ms| == 0 then [] else MergeOne(Merged(ms[..|ms| - 1]), ms[|ms| - 1])
  }

  /** merge_tool_messages */
  method MergeToolMessages(messages: seq<Message>) returns (merged: seq<Message>)
    ensures merged == Merged(messages)
  {
    merged := [];
    for i := 0 to |messages|
      invariant merged == Merged(messages[..i])
    {
      merged := MergeOne(merged, messages[i]);
      assert messages[..i + 1][..i] == messages[..i];
    }
    assert messages[..|messages|] == messages;
  }

  /** What a conversation says, in order: blocks of users and tools, and the other messages whole. */
  datatype Item = OfUser(block: Block) | Whole(message: Message)

  ghost function BlockItems(bs: seq<Block>): (r: seq<Item>)
    ensures |r| == |bs| && forall i | 0 <= i < |bs| :: r[i] == OfUser(bs[i])
  {
    seq(|bs|, i requires 0 <= i < |bs| => OfUser(bs[i]))
  }

  /** A user's blocks if it has any listed, else its list content, else its text as one block; a tool message is one
      result: its string content if it has one, else its listed blocks, else its list, else nothing. */
  ghost function ItemsOf(m: Message): seq<Item> {
    match (m.role, m.blocks, m.content)
    case (User, Some(bs), _) => BlockItems(bs)
    case (User, None, Parts(ps)) => BlockItems(ps)
    case (User, None, Plain(t)) => [OfUser(Text(t))]
    case (User, None, _) => [OfUser(Text(""))]
    case (Tool, _, Plain(t)) => [OfUser(ToolResult(m.callId, Plain(t)))]
    case (Tool, Some(bs), Shared) => [OfUser(ToolResult(m.callId, Parts(bs)))]
    case (Tool, Some(bs), Parts(ps)) => [OfUser(ToolResult(m.callId, Parts(if bs != [] then bs else ps)))]
    case (Tool, Some(bs), Missing) => [OfUser(ToolResult(m.callId, if bs != [] then Parts(bs) else Plain("")))]
    case (Tool, None, Parts(ps)) => [OfUser(ToolResult(m.callId, Parts(ps)))]
    case (Tool, None, _) => [OfUser(ToolResult(m.callId, Plain("")))]
    case _ => [Whole(m)]
  }

  ghost function Items(ms: seq<Message>): seq<Item> {
    if |ms| == 0 then [] else Items(ms[..|ms| - 1]) + ItemsOf(ms[|ms| - 1])
  }

  /** No tool role, all users in block form, and a user follows a user only after a task. */
  ghost predicate Settled(ms: seq<Message>) {
    && (forall i | 0 <= i < |ms| :: ms[i].role != Tool)
    && (forall i | 0 <= i < |ms| && ms[i].role == User :: ms[i].blocks.Some?)
    && (forall i | 0 < i < |ms| && ms[i].role == User :: !(ms[i - 1].role == User && ms[i - 1].task == None))
  }

  lemma {:induction false} MergedIsSettled(ms: seq<Message>)
    ensures Settled(Merged(ms))
  {
    if |ms| > 0 {
      MergedIsSettled(ms[..|ms| - 1]);
    }
  }

  lemma ItemsLast(ms: seq<Message>, m: Message)
    ensures Items(ms + [m]) == Items(ms) + ItemsOf(m)
  {
    assert (ms + [m])[..|ms|] == ms;
  }

  lemma ItemsExtend(ms: seq<Message>, bs: seq<Block>)
    requires |ms| > 0 && OpenUser(ms[|ms| - 1])
    ensures Items(ms[|ms| - 1 := Extend(ms[|ms| - 1], bs)]) == Items(ms) + BlockItems(bs)
  {
    var n := |ms| - 1;
    var last := ms[n];
    assert ms[n := Extend(last, bs)][..n] == ms[..n];
    assert BlockItems(last.blocks.value + bs) == BlockItems(last.blocks.value) + BlockItems(bs);
    assert Items(ms[..n]) + (BlockItems(last.blocks.value) + BlockItems(bs)) == Items(ms) + BlockItems(bs);
  }

  lemma ToolItems(m: Message)
    requires m.role == Tool
    ensures BlockItems([ToolBlock(m)]) == ItemsOf(m) && ItemsOf(FreshUser(ToolBlock(m))) == ItemsOf(m)
  {
  }

  lemma OpenedItems(m: Message)
    requires m.role == User
    ensures ItemsOf(Opened(m)) == ItemsOf(m) && BlockItems(UserBlocks(m)) == ItemsOf(m)
  {
  }

  /** A message that becomes block bs joins the open user message, or stands alone as `alone`. */
  lemma JoinItems(merged: seq<Message>, joins: bool, bs: seq<Block>, alone: Message, items: seq<Item>)
    requires joins ==> |merged| > 0 && OpenUser(merged[|merged| - 1])
    requires BlockItems(bs) == items == ItemsOf(alone)
    ensures var n := |merged|;
            Items(if joins then merged[n - 1 := Extend(merged[n - 1], bs)] else merged + [alone])
            == Items(merged) + items
  {
    if joins {
      ItemsExtend(merged, bs);
    } else {
      ItemsLast(merged, alone);
    }
  }

  lemma MergeOneItems(merged: seq<Message>, m: Message)
    ensures Items(MergeOne(merged, m)) == Items(merged) + ItemsOf(m)
  {
    var open := |merged| > 0 && OpenUser(merged[|merged| - 1]);
    if m.role == Tool {
      ToolItems(m);
      JoinItems(merged, open, [ToolBlock(m)], FreshUser(ToolBlock(m)), ItemsOf(m));
    } else if m.role == User {
      OpenedItems(m);
      JoinItems(merged, open && merged[|merged| - 1].task == None, UserBlocks(m), Opened(m), ItemsOf(m));
    } else {
      ItemsLast(merged, m);
    }
  }

  /** Merging keeps every block and every other message, in order. */
  lemma {:induction false} MergeKeepsItems(ms: seq<Message>)
    ensures Items(Merged(ms)) == Items(ms)
  {
    if |ms| > 0 {
      MergeKeepsItems(ms[..|ms| - 1]);
      MergeOneItems(Merged(ms[..|ms| - 1]), ms[|ms| - 1]);
    }
  }

  /** A settled conversation is left alone, */
  lemma {:induction false} SettledIsFixed(ms: seq<Message>)
    requires Settled(ms)
    ensures Merged(ms) == ms
  {
    if |ms| > 0 {
      var init := ms[..|ms| - 1];
      SettledIsFixed(init);
      assert ms == init + [ms[|ms| - 1]];
      var m := ms[|ms| - 1];
      assert m.role == User ==> Opened(m) == m;
    }
  }

  /** so merging is idempotent. */
  lemma MergeIdempotent(ms: seq<Message>)
    ensures Merged(Merged(ms)) == Merged(ms)
  {
    MergedIsSettled(ms);
    SettledIsFixed(Merged(ms));
  }

  // Which input messages open a merged one, told from the input alone.

  predicate IsUserSide(m: Message) {
    m.role == User || m.role == Tool
  }

  /** The task of the merged message that input message i ends up in. */
  ghost function GroupTask(ms: seq<Message>, i: nat): Option<string>
    requires i < |ms|
    decreases i, 1
  {
    if Opens(ms, i) then (if ms[i].role == Tool then None else ms[i].task) else GroupTask(ms, i - 1)
  }

  /** A user or tool message opens a new one unless it follows on another; a user message does not follow on a task. */
  ghost predicate Opens(ms: seq<Message>, i: nat)
    requires i < |ms|
    decreases i, 0
  {
    !IsUserSide(ms[i]) || i == 0 || !IsUserSide(ms[i - 1]) || (ms[i].role == User && GroupTask(ms, i - 1).Some?)
  }

  /** A message but for its blocks: a tool message leaves a bare user message, and a user's list content stays the
      same list as its blocks. */
  function Head(m: Message): Message {
    if m.role == Tool then Message(User, Missing, None, None, "", [], "", false)
    else if m.role == User then
      m.(blocks := None, content := if m.blocks.None? && m.content.Parts? then Shared else m.content)
    else m
  }

  function Heads(ms: seq<Message>): (r: seq<Message>)
    ensures |r| == |ms| && forall i | 0 <= i < |ms| :: r[i] == Head(ms[i])
  {
    seq(|ms|, i requires 0 <= i < |ms| => Head(ms[i]))
  }

  ghost function Openers(ms: seq<Message>, n: nat): seq<Message>
    requires n <= |ms|
  {
    if n == 0 then [] else if Opens(ms, n - 1) then Openers(ms, n - 1) + [Head(ms[n - 1])] else Openers(ms, n - 1)
  }

  /** The merged messages carry the roles, tasks and other fields of exactly the messages that open them. */
  lemma {:induction false} MergeKeepsHeads(ms: seq<Message>, n: nat)
    requires n <= |ms|
    ensures Heads(Merged(ms[..n])) == Openers(ms, n)
  {
    if n > 0 {
      MergeKeepsHeads(ms, n - 1);
      assert ms[..n][..n - 1] == ms[..n - 1];
      var before, m := Merged(ms[..n - 1]), ms[n - 1];
      if n > 1 {
        LastGroup(ms, n - 1);
      }
      OpensIff(ms, n - 1, before);
      MergedIsSettled(ms[..n - 1]);
      HeadsOfOne(before, m, Opens(ms, n - 1));
    }
  }

  /** The last merged message, and what of it decides whether the next message opens another. */
  ghost predicate IsGroup(ms: seq<Message>, i: nat, m: Message)
    requires i < |ms|
  {
    (OpenUser(m) <==> IsUserSide(ms[i])) && (IsUserSide(ms[i]) ==> m.task == GroupTask(ms, i))
  }

  lemma OpensIff(ms: seq<Message>, i: nat, merged: seq<Message>)
    requires i < |ms| && (merged == [] <==> i == 0) && (i > 0 ==> IsGroup(ms, i - 1, merged[|merged| - 1]))
    ensures Opens(ms, i) <==> |MergeOne(merged, ms[i])| == |merged| + 1
  {
  }

  lemma GroupOfOne(ms: seq<Message>, i: nat, merged: seq<Message>)
    requires i < |ms| && (merged == [] <==> i == 0) && (i > 0 ==> IsGroup(ms, i - 1, merged[|merged| - 1]))
    ensures var out := MergeOne(merged, ms[i]); out != [] && IsGroup(ms, i, out[|out| - 1])
  {
    OpensIff(ms, i, merged);
  }

  lemma {:induction false} LastGroup(ms: seq<Message>, n: nat)
    requires 0 < n <= |ms|
    ensures var out := Merged(ms[..n]); out != [] && IsGroup(ms, n - 1, out[|out| - 1])
  {
    assert ms[..n][..n - 1] == ms[..n - 1];
    if n > 1 {
      LastGroup(ms, n - 1);
    }
    GroupOfOne(ms, n - 1, Merged(ms[..n - 1]));
  }

  lemma HeadsOfOne(merged: seq<Message>, m: Message, opens: bool)
    requires Settled(merged) && (opens <==> |MergeOne(merged, m)| == |merged| + 1)
    ensures Heads(MergeOne(merged, m)) == if opens then Heads(merged) + [Head(m)] else Heads(merged)
  {
  }

  // ---------------------------------------------------------------- sorting

  /** Position of every named call; the last of two equal ids counts. */
  function CallOrder(calls: seq<string>): map<string, nat> {
    if |calls| == 0 then map[]
    else
      var n := |calls| - 1;
      if calls[n] == "" then CallOrder(calls[..n]) else CallOrder(calls[..n])[calls[n] := n]
  }

  /** The order in force at message i: that of the nearest earlier assistant message with calls. */
  function OrderAt(ms: seq<Message>, i: nat): map<string, nat>
    requires i <= |ms|
  {
    if i == 0 then map[]
    else if ms[i - 1].role == Assistant && ms[i - 1].calls != [] then CallOrder(ms[i - 1].calls)
    else OrderAt(ms, i - 1)
  }

  /** p is where id is called, the last time it is. */
  ghost predicate IsLastCall(calls: seq<string>, id: string, p: nat) {
    p < |calls| && calls[p] == id && forall q | p < q < |calls| :: calls[q] != id
  }

  /** The order maps exactly the called ids, to where they are called last; a call without an id has no place. */
  lemma {:induction false} CallOrderIs(calls: seq<string>, id: string)
    ensures id in CallOrder(calls) <==> id != "" && id in calls
    ensures id in CallOrder(calls) ==> IsLastCall(calls, id, CallOrder(calls)[id])
  {
    if |calls| > 0 {
      var n := |calls| - 1;
      CallOrderIs(calls[..n], id);
      assert calls == calls[..n] + [calls[n]];
    }
  }

  /** The order in force is that of the nearest earlier assistant message with calls, or none. */
  lemma {:induction false} OrderIs(ms: seq<Message>, i: nat, a: int)
    requires -1 <= a < i <= |ms|
    requires a >= 0 ==> ms[a].role == Assistant && ms[a].calls != []
    requires forall j | a < j < i :: !(ms[j].role == Assistant && ms[j].calls != [])
    ensures OrderAt(ms, i) == if a < 0 then map[] else CallOrder(ms[a].calls)
  {
    if i > a + 1 {
      OrderIs(ms, i - 1, a);
    }
  }

  function Key(order: map<string, nat>, b: Block): nat {
    if b.ToolResult? && b.id in order then order[b.id] else 0
  }

  ghost predicate Ascending(order: map<string, nat>, s: seq<Block>) {
    forall i, j | 0 <= i < j < |s| :: Key(order, s[i]) <= Key(order, s[j])
  }

  /** Insert after everything of the same key. */
  function Insert(order: map<string, nat>, s: seq<Block>, b: Block): (r: seq<Block>)
    ensures |r| == |s| + 1
  {
    var n := |s|;
    if n == 0 || Key(order, s[n - 1]) <= Key(order, b) then s + [b] else Insert(order, s[..n - 1], b) + [s[n - 1]]
  }

  /** The stable sort of a list of blocks by key. */
  function StableSort(order: map<string, nat>, s: seq<Block>): (r: seq<Block>)
    ensures |r| == |s|
  {
    if |s| == 0 then [] else Insert(order, StableSort(order, s[..|s| - 1]), s[|s| - 1])
  }

  /** The blocks of one key, in order. */
  ghost function OfKey(order: map<string, nat>, s: seq<Block>, k: nat): seq<Block> {
    if |s| == 0 then []
    else if Key(order, s[|s| - 1]) == k then OfKey(order, s[..|s| - 1], k) + [s[|s| - 1]]
    else OfKey(order, s[..|s| - 1], k)
  }

  lemma OfKeyLast(order: map<string, nat>, s: seq<Block>, b: Block, k: nat)
    ensures OfKey(order, s + [b], k) == OfKey(order, s, k) + if Key(order, b) == k then [b] else []
  {
    assert (s + [b])[..|s|] == s;
  }

  ghost predicate KeysUpTo(order: map<string, nat>, s: seq<Block>, m: nat) {
    forall i | 0 <= i < |s| :: Key(order, s[i]) <= m
  }

  lemma {:induction false} InsertUpTo(order: map<string, nat>, s: seq<Block>, b: Block, m: nat)
    requires KeysUpTo(order, s, m) && Key(order, b) <= m
    ensures KeysUpTo(order, Insert(order, s, b), m)
  {
    var n := |s|;
    if n > 0 && Key(order, s[n - 1]) > Key(order, b) {
      InsertUpTo(order, s[..n - 1], b, m);
    }
  }

  lemma {:induction false} InsertAscending(order: map<string, nat>, s: seq<Block>, b: Block)
    requires Ascending(order, s)
    ensures Ascending(order, Insert(order, s, b))
  {
    var n := |s|;
    if n > 0 && Key(order, s[n - 1]) > Key(order, b) {
      InsertAscending(order, s[..n - 1], b);
      InsertUpTo(order, s[..n - 1], b, Key(order, s[n - 1]));
    }
  }

  lemma {:induction false} InsertOfKey(order: map<string, nat>, s: seq<Block>, b: Block, k: nat)
    ensures OfKey(order, Insert(order, s, b), k) == OfKey(order, s, k) + if Key(order, b) == k then [b] else []
  {
    var n := |s|;
    if n == 0 || Key(order, s[n - 1]) <= Key(order, b) {
      OfKeyLast(order, s, b, k);
    } else {
      var init, last := s[..n - 1], s[n - 1];
      InsertOfKey(order, init, b, k);
      OfKeyLast(order, Insert(order, init, b), last, k);
    }
  }

  /** Sorting is by call order and, within equal keys, keeps the order: so it is a stable permutation. */
  lemma {:induction false} StableSortStable(order: map<string, nat>, s: seq<Block>, k: nat)
    ensures Ascending(order, StableSort(order, s)) && OfKey(order, StableSort(order, s), k) == OfKey(order, s, k)
  {
    if |s| > 0 {
      StableSortStable(order, s[..|s| - 1], k);
      InsertAscending(order, StableSort(order, s[..|s| - 1]), s[|s| - 1]);
      InsertOfKey(order, StableSort(order, s[..|s| - 1]), s[|s| - 1], k);
    }
  }

  lemma {:induction false} InsertMembers(order: map<string, nat>, s: seq<Block>, b: Block)
    ensures multiset(Insert(order, s, b)) == multiset(s) + multiset{b}
  {
    var n := |s|;
    if n > 0 && Key(order, s[n - 1]) > Key(order, b) {
      InsertMembers(order, s[..n - 1], b);
      assert s == s[..n - 1] + [s[n - 1]];
    }
  }

  lemma Snoc(s: seq<Block>, init: seq<Block>, last: Block)
    requires |s| > 0 && init == s[..|s| - 1] && last == s[|s| - 1]
    ensures multiset(s) == multiset(init) + multiset{last}
  {
    assert s == init + [last];
  }

  lemma {:induction false} StableSortMembers(order: map<string, nat>, s: seq<Block>)
    ensures multiset(StableSort(order, s)) == multiset(s)
  {
    if |s| > 0 {
      var init, last := s[..|s| - 1], s[|s| - 1];
      StableSortMembers(order, init);
      InsertMembers(order, StableSort(order, init), last);
      Snoc(s, init, last);
    }
  }

  /** Sorted input comes back unchanged. */
  lemma {:induction false} StableSortFixed(order: map<string, nat>, s: seq<Block>)
    requires Ascending(order, s)
    ensures StableSort(order, s) == s
  {
    if |s| > 0 {
      StableSortFixed(order, s[..|s| - 1]);
      assert s == s[..|s| - 1] + [s[|s| - 1]];
    }
  }

  predicate AllTools(s: seq<Block>) {
    forall i | 0 <= i < |s| :: s[i].ToolResult?
  }

  /** The tool results among the first n blocks. */
  function ToolsOf(bs: seq<Block>, n: nat): (r: seq<Block>)
    requires n <= |bs|
    ensures AllTools(r)
  {
    if n == 0 then [] else if bs[n - 1].ToolResult? then ToolsOf(bs, n - 1) + [bs[n - 1]] else ToolsOf(bs, n - 1)
  }

  lemma {:induction false} ToolsGrow(bs: seq<Block>, m: nat, n: nat)
    requires m <= n <= |bs|
    ensures |ToolsOf(bs, m)| <= |ToolsOf(bs, n)|
    ensures m < n && bs[m].ToolResult? ==> |ToolsOf(bs, m)| < |ToolsOf(bs, n)|
  {
    if m < n {
      ToolsGrow(bs, m, n - 1);
    }
  }

  /** bs with its tool results replaced, in turn, by those of `tools`. */
  function Refill(bs: seq<Block>, tools: seq<Block>, n: nat): (r: seq<Block>)
    requires n <= |bs| && |ToolsOf(bs, n)| <= |tools|
    ensures |r| == n
  {
    if n == 0 then []
    else if bs[n - 1].ToolResult? then Refill(bs, tools, n - 1) + [tools[|ToolsOf(bs, n - 1)|]]
    else Refill(bs, tools, n - 1) + [bs[n - 1]]
  }

  function SortBlocks(order: map<string, nat>, bs: seq<Block>): seq<Block> {
    Refill(bs, StableSort(order, ToolsOf(bs, |bs|)), |bs|)
  }

  lemma {:induction false} RefillKeepsOthers(bs: seq<Block>, tools: seq<Block>, n: nat, i: nat)
    requires i < n <= |bs| && |ToolsOf(bs, n)| <= |tools| && AllTools(tools)
    ensures Refill(bs, tools, n)[i].ToolResult? <==> bs[i].ToolResult?
    ensures !bs[i].ToolResult? ==> Refill(bs, tools, n)[i] == bs[i]
  {
    if i < n - 1 {
      RefillKeepsOthers(bs, tools, n - 1, i);
    }
  }

  lemma {:induction false} ToolsPrefix(a: seq<Block>, b: seq<Block>, n: nat)
    requires n <= |a| && n <= |b| && forall i | 0 <= i < n :: a[i] == b[i]
    ensures ToolsOf(a, n) == ToolsOf(b, n)
  {
    if n > 0 {
      ToolsPrefix(a, b, n - 1);
    }
  }

  lemma {:induction false} RefillTools(bs: seq<Block>, tools: seq<Block>, n: nat)
    requires n <= |bs| && |ToolsOf(bs, n)| <= |tools| && AllTools(tools)
    ensures ToolsOf(Refill(bs, tools, n), n) == tools[..|ToolsOf(bs, n)|]
  {
    if n > 0 {
      RefillTools(bs, tools, n - 1);
      ToolsPrefix(Refill(bs, tools, n), Refill(bs, tools, n - 1), n - 1);
    }
  }

  lemma {:induction false} RefillSame(bs: seq<Block>, n: nat)
    requires n <= |bs|
    ensures |ToolsOf(bs, n)| <= |ToolsOf(bs, |bs|)| && Refill(bs, ToolsOf(bs, |bs|), n) == bs[..n]
  {
    ToolsGrow(bs, n, |bs|);
    if n > 0 {
      RefillSame(bs, n - 1);
      if bs[n - 1].ToolResult? {
        ToolsAt(bs, n - 1, |bs|);
      }
    }
  }

  lemma {:induction false} ToolsAt(bs: seq<Block>, i: nat, n: nat)
    requires i < n <= |bs| && bs[i].ToolResult?
    ensures |ToolsOf(bs, i)| < |ToolsOf(bs, n)| && ToolsOf(bs, n)[|ToolsOf(bs, i)|] == bs[i]
  {
    if i < n - 1 {
      ToolsAt(bs, i, n - 1);
    }
  }

  lemma SortedTools(order: map<string, nat>, bs: seq<Block>)
    ensures AllTools(StableSort(order, ToolsOf(bs, |bs|)))
  {
    var s := ToolsOf(bs, |bs|);
    var t := StableSort(order, s);
    StableSortMembers(order, s);
    forall j | 0 <= j < |t|
      ensures t[j].ToolResult?
    {
      assert t[j] in multiset(t);
      assert t[j] in multiset(s);
    }
  }

  /** Sorting a message fixes every block that is no tool result; the tool results, read in order, are the old ones
      ascending by call and unchanged within a call. */
  lemma SortBlocksMeans(order: map<string, nat>, bs: seq<Block>, i: nat, k: nat)
    ensures |SortBlocks(order, bs)| == |bs|
    ensures i < |bs| ==> (SortBlocks(order, bs)[i].ToolResult? <==> bs[i].ToolResult?)
    ensures i < |bs| && !bs[i].ToolResult? ==> SortBlocks(order, bs)[i] == bs[i]
    ensures var tools := ToolsOf(SortBlocks(order, bs), |bs|);
            Ascending(order, tools) && OfKey(order, tools, k) == OfKey(order, ToolsOf(bs, |bs|), k) &&
              multiset(tools) == multiset(ToolsOf(bs, |bs|))
  {
    var s := ToolsOf(bs, |bs|);
    var t := StableSort(order, s);
    SortedTools(order, bs);
    RefillTools(bs, t, |bs|);
    assert t[..|t|] == t;
    StableSortStable(order, s, k);
    StableSortMembers(order, s);
    if i < |bs| {
      RefillKeepsOthers(bs, t, |bs|, i);
    }
  }

  /** Of two results in a sorted message, the one whose call comes first comes first. */
  lemma ResultsFollowCalls(calls: seq<string>, bs: seq<Block>, i: nat, j: nat, p: nat, q: nat)
    requires var out := SortBlocks(CallOrder(calls), bs);
             && i < j < |out| && out[i].ToolResult? && out[j].ToolResult? && out[i].id != "" && out[j].id != ""
             && IsLastCall(calls, out[i].id, p) && IsLastCall(calls, out[j].id, q)
    ensures p <= q
  {
    var order, out := CallOrder(calls), SortBlocks(CallOrder(calls), bs);
    SortBlocksMeans(order, bs, 0, 0);
    CallOrderIs(calls, out[i].id);
    CallOrderIs(calls, out[j].id);
    ToolsAt(out, i, |out|);
    ToolsAt(out, j, |out|);
    ToolsGrow(out, i, j);
  }

  /** A result of no call counts as one of the first call: only such a result, or one of the first call, comes
      before it. */
  lemma UncalledResult(calls: seq<string>, bs: seq<Block>, i: nat, j: nat, p: nat)
    requires var out := SortBlocks(CallOrder(calls), bs);
             && i < j < |out| && out[i].ToolResult? && out[j].ToolResult?
             && (out[j].id == "" || out[j].id !in calls) && out[i].id != "" && IsLastCall(calls, out[i].id, p)
    ensures p == 0
  {
    var order, out := CallOrder(calls), SortBlocks(CallOrder(calls), bs);
    SortBlocksMeans(order, bs, 0, 0);
    CallOrderIs(calls, out[i].id);
    CallOrderIs(calls, out[j].id);
    ToolsAt(out, i, |out|);
    ToolsAt(out, j, |out|);
    ToolsGrow(out, i, j);
  }

  /** The guard of the source, fewer than two results or no order, skips only sorts that change nothing. */
  lemma GuardSkipsNothing(order: map<string, nat>, bs: seq<Block>)
    requires |ToolsOf(bs, |bs|)| <= 1 || order == map[]
    ensures SortBlocks(order, bs) == bs
  {
    StableSortFixed(order, ToolsOf(bs, |bs|));
    RefillSame(bs, |bs|);
    assert bs[..|bs|] == bs;
  }

  /** The guard of the source: at least two results and an order to follow. */
  predicate Sorts(order: map<string, nat>, bs: seq<Block>) {
    |ToolsOf(bs, |bs|)| > 1 && order != map[]
  }

  /** A sorted message gets a new list of blocks; content that was the old list keeps it. */
  function SortMessage(order: map<string, nat>, m: Message): Message {
    if m.role == User && m.blocks.Some? && Sorts(order, m.blocks.value)
      then m.(blocks := Some(SortBlocks(order, m.blocks.value)), content := ContentOf(m))
      else m
  }

  /** Guard or not, the blocks are the sorted ones and the content is as it was. */
  lemma SortMessageMeans(order: map<string, nat>, m: Message)
    requires m.role == User && m.blocks.Some?
    ensures SortMessage(order, m).blocks == Some(SortBlocks(order, m.blocks.value))
    ensures ContentOf(SortMessage(order, m)) == ContentOf(m)
  {
    if !Sorts(order, m.blocks.value) {
      GuardSkipsNothing(order, m.blocks.value);
    }
  }

  /** The first n messages, each sorted by the order in force there. */
  function SortedMessages(ms: seq<Message>, n: nat): (r: seq<Message>)
    requires n <= |ms|
    ensures |r| == n
  {
    if n == 0 then [] else SortedMessages(ms, n - 1) + [SortMessage(OrderAt(ms, n - 1), ms[n - 1])]
  }

  lemma {:induction false} SortedAt(ms: seq<Message>, n: nat, i: nat)
    requires i < n <= |ms|
    ensures SortedMessages(ms, n)[i] == SortMessage(OrderAt(ms, i), ms[i])
  {
    if i < n - 1 {
      SortedAt(ms, n - 1, i);
    }
  }

  /** The loop that puts the sorted results back. */
  method PutBack(bs: seq<Block>, sorted: seq<Block>) returns (r: seq<Block>)
    requires |ToolsOf(bs, |bs|)| <= |sorted|
    ensures r == Refill(bs, sorted, |bs|)
  {
    r := [];
    var next := 0;
    ToolsGrow(bs, 0, |bs|);
    for i := 0 to |bs|
      invariant next == |ToolsOf(bs, i)| <= |sorted|
      invariant r == Refill(bs, sorted, i)
    {
      ToolsGrow(bs, i, |bs|);
      ToolsGrow(bs, i + 1, |bs|);
      if bs[i].ToolResult? {
        r := r + [sorted[next]];
        next := next + 1;
      } else {
        r := r + [bs[i]];
      }
    }
  }

  /** The user branch of the sorting loop. */
  method SortUser(order: map<string, nat>, m: Message) returns (r: Message)
    requires m.role == User && m.blocks.Some?
    ensures r == SortMessage(order, m)
  {
    var bs := m.blocks.value;
    var tools := ToolsOf(bs, |bs|);
    r := m;
    if |tools| > 1 && order != map[] {
      var put := PutBack(bs, StableSort(order, tools));
      r := m.(blocks := Some(put), content := ContentOf(m));
    }
  }

  /** sort_tool_results_by_call_order */
  method SortToolResults(messages: seq<Message>) returns (ms: seq<Message>)
    ensures ms == SortedMessages(messages, |messages|)
  {
    ms := [];
    var order: map<string, nat> := map[];
    for i := 0 to |messages|
      invariant order == OrderAt(messages, i)
      invariant ms == SortedMessages(messages, i)
    {
      var m := messages[i];
      if m.role == Assistant && m.calls != [] {
        order := CallOrder(m.calls);
      } else if m.role == User && m.blocks.Some? {
        m := SortUser(order, m);
      }
      ms := ms + [m];
    }
  }

  // ---------------------------------------------------------------- dropping finished reasoning

  predicate IsShown(b: Block) {
    b.Text? || b.Image?
  }

  /** Message i starts a turn: a user, developer or later system message, unless it holds only tool results. */
  ghost predicate StartsTurn(ms: seq<Message>, i: nat)
    requires i < |ms|
  {
    && (ms[i].role == User || ms[i].role == Developer || (ms[i].role == System && i > 0))
    && !(ms[i].blocks.Some? && ms[i].blocks.value != [] &&
      forall b | b in ms[i].blocks.value :: !b.Text? && !b.Image?)
  }

  /** The last message that starts a turn, -1 if none does. */
  ghost predicate IsLastTurn(ms: seq<Message>, last: int) {
    && -1 <= last < |ms|
    && (last >= 0 ==> StartsTurn(ms, last))
    && forall i: nat | last < i < |ms| :: !StartsTurn(ms, i)
  }

  /** A last turn is started by a user, a developer or a system message that is not the first, and every such message
      behind it holds results alone. */
  lemma LastTurnMeans(ms: seq<Message>, last: int, i: nat)
    requires IsLastTurn(ms, last) && last < i < |ms|
    ensures last >= 0 ==> ms[last].role == User || ms[last].role == Developer || (ms[last].role == System && last > 0)
    ensures var starter := ms[i].role == User || ms[i].role == Developer || (ms[i].role == System && i > 0);
            starter ==>
              && ms[i].blocks.Some? && ms[i].blocks.value != []
              && forall b | b in ms[i].blocks.value :: !b.Text? && !b.Image?
  {
    assert !StartsTurn(ms, i);
  }

  method AnyShown(bs: seq<Block>) returns (any: bool)
    ensures any <==> exists j :: 0 <= j < |bs| && IsShown(bs[j])
  {
    any := false;
    for i := 0 to |bs|
      invariant !any
      invariant forall j | 0 <= j < i :: !IsShown(bs[j])
    {
      if IsShown(bs[i]) {
        return true;
      }
    }
  }

  /** find_last_user_index */
  method FindLastUserIndex(ms: seq<Message>) returns (last: int)
    ensures IsLastTurn(ms, last)
  {
    for i := |ms| downto 0
      invariant forall j: nat | i <= j < |ms| :: !StartsTurn(ms, j)
    {
      var m := ms[i];
      if m.role == User || m.role == Developer || (m.role == System && i > 0) {
        var only := false;
        if m.blocks.Some? && m.blocks.value != [] {
          var any := AnyShown(m.blocks.value);
          only := !any;
        }
        if !only {
          return i;
        }
      }
    }
    return -1;
  }

  predicate KeptRole(r: Role) {
    r == User || r == System || r == Tool || r == Reminder || r == SearchResults
  }

  /** What the drop pass makes of message i. */
  function DropOne(m: Message, i: nat, last: int): seq<Message> {
    if i >= last then [m]
    else
      match m.role
      case User | System | Tool | Reminder | SearchResults => [m]
      case Assistant => [m.(reasoning := "")]
      case Developer | OtherRole => []
  }

  function Dropped(ms: seq<Message>, last: int, n: nat): seq<Message>
    requires n <= |ms|
  {
    if n == 0 then [] else Dropped(ms, last, n - 1) + DropOne(ms[n - 1], n - 1, last)
  }

  /** _drop_thinking_messages, relative to the one last turn. */
  method DropThinking(ms: seq<Message>) returns (r: seq<Message>)
    ensures forall last: int | IsLastTurn(ms, last) :: r == Dropped(ms, last, |ms|)
  {
    var last := FindLastUserIndex(ms);
    r := [];
    for i := 0 to |ms|
      invariant r == Dropped(ms, last, i)
    {
      if KeptRole(ms[i].role) || i >= last {
        r := r + [ms[i]];
      } else if ms[i].role == Assistant {
        r := r + [ms[i].(reasoning := "")];
      }
    }
    OneLastTurn(ms, last);
  }

  /** Where message i stands after the drop. */
  ghost function Pos(ms: seq<Message>, last: int, i: nat): nat
    requires i <= |ms|
  {
    |Dropped(ms, last, i)|
  }

  ghost predicate Survives(ms: seq<Message>, last: int, i: nat) {
    i < |ms| && (i >= last || (ms[i].role != Developer && ms[i].role != OtherRole))
  }

  lemma {:induction false} DroppedAt(ms: seq<Message>, last: int, i: nat, n: nat)
    requires n <= |ms| && i < n && Survives(ms, last, i)
    ensures Pos(ms, last, i) < Pos(ms, last, n)
    ensures Dropped(ms, last, n)[Pos(ms, last, i)] == DropOne(ms[i], i, last)[0]
  {
    if i < n - 1 {
      DroppedAt(ms, last, i, n - 1);
    }
  }

  /** Every message after the drop is a survivor. */
  lemma {:induction false} DroppedFrom(ms: seq<Message>, last: int, n: nat, p: nat) returns (i: nat)
    requires n <= |ms| && p < Pos(ms, last, n)
    ensures i < n && Survives(ms, last, i) && Pos(ms, last, i) == p
  {
    if p < Pos(ms, last, n - 1) {
      i := DroppedFrom(ms, last, n - 1, p);
    } else {
      i := n - 1;
    }
  }

  /** From the last turn on nothing is dropped. */
  lemma {:induction false} TailKept(ms: seq<Message>, last: int, i: nat)
    requires last <= i <= |ms| && 0 <= last
    ensures Pos(ms, last, i) == Pos(ms, last, last) + (i - last)
  {
    if i > last {
      TailKept(ms, last, i - 1);
    }
  }

  lemma {:induction false} NothingDropped(ms: seq<Message>, i: nat)
    requires i <= |ms|
    ensures Dropped(ms, -1, i) == ms[..i]
  {
    if i > 0 {
      NothingDropped(ms, i - 1);
    }
  }

  /** Without a turn the conversation stays as it is. */
  lemma NothingMoves(ms: seq<Message>, i: nat)
    requires i <= |ms|
    ensures Dropped(ms, -1, |ms|) == ms && Pos(ms, -1, i) == i
  {
    NothingDropped(ms, |ms|);
    NothingDropped(ms, i);
    assert ms[..|ms|] == ms;
  }

  ghost predicate AfterTask(ms: seq<Message>, i: nat)
    requires i < |ms|
  {
    i > 0 && ms[i - 1].task.Some?
  }

  /** The reasoning part render_message gives message i. */
  ghost function ThinkingPart(ms: seq<Message>, i: nat, thinking: bool, drop: bool, last: int): Option<string>
    requires i < |ms|
  {
    var shown := ms[i].role == Assistant && thinking && !AfterTask(ms, i) && (!drop || i > last);
    if shown then Some(ms[i].reasoning) else None
  }

  /** Dropping moves the last turn's start along, unless that is a system message that becomes the first message. */
  lemma LastTurnAfter(ms: seq<Message>, last: int, last': int)
    requires IsLastTurn(ms, last) && IsLastTurn(Dropped(ms, last, |ms|), last')
    ensures last >= 0 ==> last' == Pos(ms, last, last) || (Pos(ms, last, last) == 0 && last' == -1)
    ensures last < 0 ==> last' < 0
  {
    var out := Dropped(ms, last, |ms|);
    if last < 0 {
      NothingDropped(ms, |ms|);
      assert out == ms;
    } else {
      var p := Pos(ms, last, last);
      DroppedAt(ms, last, last, |ms|);
      assert out[p] == ms[last];
      TailKept(ms, last, |ms|);
      forall q: nat | p < q < |out|
        ensures !StartsTurn(out, q)
      {
        var i := last + (q - p);
        TailKept(ms, last, i);
        DroppedAt(ms, last, i, |ms|);
        assert out[q] == ms[i] && !StartsTurn(ms, i);
      }
      assert p > 0 ==> StartsTurn(out, p);
    }
  }

  /** A message after the last turn's start keeps its predecessor. */
  lemma CurrentTurn(ms: seq<Message>, last: int, i: nat)
    requires 0 <= last < i < |ms|
    ensures var out, p := Dropped(ms, last, |ms|), Pos(ms, last, i);
            Pos(ms, last, last) < p < |out| && out[p] == ms[i] && out[p - 1] == ms[i - 1]
  {
    TailKept(ms, last, i);
    TailKept(ms, last, i - 1);
    DroppedAt(ms, last, i, |ms|);
    DroppedAt(ms, last, i - 1, |ms|);
  }

  /** An assistant message before it stays before it. */
  lemma EarlierTurn(ms: seq<Message>, last: int, i: nat)
    requires i < last < |ms| && ms[i].role == Assistant
    ensures Pos(ms, last, i) < Pos(ms, last, last) < |Dropped(ms, last, |ms|)|
  {
    DroppedAt(ms, last, i, last);
    DroppedAt(ms, last, last, |ms|);
  }

  /** Reasoning is shown exactly for the assistant messages after the last turn's start whose predecessor carries
      no task, as the conversation stood before the drop. */
  lemma ReasoningShownIff(ms: seq<Message>, last: int, last': int, i: nat)
    requires IsLastTurn(ms, last) && IsLastTurn(Dropped(ms, last, |ms|), last')
    requires i < |ms| && ms[i].role == Assistant
    ensures Pos(ms, last, i) < |Dropped(ms, last, |ms|)|
    ensures ThinkingPart(Dropped(ms, last, |ms|), Pos(ms, last, i), true, true, last')
         == if i > last && !AfterTask(ms, i) then Some(ms[i].reasoning) else None
  {
    LastTurnAfter(ms, last, last');
    if last < 0 {
      NothingMoves(ms, i);
      assert last == -1;
    } else if i > last {
      CurrentTurn(ms, last, i);
    } else {
      assert i != last;
      EarlierTurn(ms, last, i);
    }
  }

  // ---------------------------------------------------------------- the whole encoder

  /** What of an encoded message is modelled: the message and its reasoning part. */
  datatype Rendered = Rendered(message: Message, reasoning: Option<string>)

  ghost predicate AnyTools(ms: seq<Message>) {
    exists i :: 0 <= i < |ms| && ms[i].hasTools
  }

  method HasTools(ms: seq<Message>) returns (any: bool)
    ensures any <==> AnyTools(ms)
  {
    for i := 0 to |ms|
      invariant forall j | 0 <= j < i :: !ms[j].hasTools
    {
      if ms[i].hasTools {
        return true;
      }
    }
    return false;
  }

  // ---------------------------------------------------------------- refusals

  /** render_message has a branch for the role and what that branch needs: a developer message has text, and a user
      message without blocks has no list to append to the prompt. */
  predicate RoleRenders(m: Message) {
    match m.role
    case System => true
    case Reminder => true
    case Assistant => true
    case Developer => m.content.Plain? && m.content.text != ""
    case User => (m.blocks.Some? && m.blocks.value != []) || !ContentOf(m).Parts? || ContentOf(m).parts == []
    case _ => false
  }

  predicate ValidTask(task: string) {
    task in {"action", "query", "authority", "domain", "title", "read_url"}
  }

  /** The task of a message is looked at when it is the last or an assistant message or reminder follows. */
  predicate TaskRead(ms: seq<Message>, i: nat)
    requires i < |ms|
  {
    i + 1 == |ms| || ms[i + 1].role == Assistant || ms[i + 1].role == Reminder
  }

  predicate Renderable(ms: seq<Message>, i: nat)
    requires i < |ms|
  {
    RoleRenders(ms[i]) && (TaskRead(ms, i) && ms[i].task.Some? ==> ValidTask(ms[i].task.value))
  }

  /** Some message makes render_message raise. */
  ghost predicate Refused(ms: seq<Message>) {
    exists i: nat :: i < |ms| && !Renderable(ms, i)
  }

  /** Which messages refuse a conversation on their own, message by message. */
  lemma RefusedAlone(m: Message)
    ensures Refused([m]) <==>
      || m.role == Tool || m.role == SearchResults || m.role == OtherRole
      || (m.role == Developer && (m.content == Plain("") || !m.content.Plain?))
      || (m.role == User && (m.blocks == None || m.blocks == Some([])) && m.content.Parts? && m.content.parts != [])
      || (m.task.Some? && m.task.value !in ["action", "query", "authority", "domain", "title", "read_url"])
  {
    assert Refused([m]) <==> !Renderable([m], 0);
  }

  ghost predicate RefusesAt(ms: seq<Message>, i: nat)
    requires i < |ms|
  {
    if i + 1 == |ms| || ms[i + 1].role == Assistant || ms[i + 1].role == Reminder then Refused([ms[i]])
    else Refused([ms[i].(task := None)])
  }

  /** A conversation is refused by a message that would refuse it alone, unless only its task is at fault and a
      message follows that is neither assistant nor reminder. */
  lemma RefusedByOne(ms: seq<Message>)
    ensures Refused(ms) <==> exists i: nat | i < |ms| :: RefusesAt(ms, i)
  {
    forall i: nat | i < |ms|
      ensures !Renderable(ms, i) <==> RefusesAt(ms, i)
    {
      RefusedAlone(ms[i]);
      RefusedAlone(ms[i].(task := None));
    }
  }

  /** The reasoning part of every message; None when some message raises. */
  method Render(ms: seq<Message>, thinking: bool, drop: bool, last: int) returns (r: Option<seq<Rendered>>)
    ensures r.None? <==> Refused(ms)
    ensures r.Some? ==> |r.value| == |ms|
    ensures r.Some? ==> forall i: nat | i < |ms| ::
      r.value[i] == Rendered(ms[i], ThinkingPart(ms, i, thinking, drop, last))
  {
    var parts: seq<Rendered> := [];
    for i := 0 to |ms|
      invariant |parts| == i && forall j: nat | j < i :: Renderable(ms, j)
      invariant forall j: nat | j < i :: parts[j] == Rendered(ms[j], ThinkingPart(ms, j, thinking, drop, last))
    {
      if !Renderable(ms, i) {
        return None;
      }
      var part: Option<string> := None;
      if ms[i].role == Assistant {
        var prevHasTask := i > 0 && ms[i - 1].task.Some?;
        if thinking && !prevHasTask && (!drop || i > last) {
          part := Some(ms[i].reasoning);
        }
      }
      parts := parts + [Rendered(ms[i], part)];
    }
    r := Some(parts);
  }

  /** The messages that are rendered. */
  ghost function Full(ms: seq<Message>, last: int, drops: bool): seq<Message> {
    if drops then Dropped(ms, last, |ms|) else ms
  }

  /** The drop pass keeps direct_search_results on purpose, and nothing renders them: such a message always refuses the
      conversation. */
  lemma SearchResultsRefuse(ms: seq<Message>, last: int, drops: bool, i: nat)
    requires i < |ms| && ms[i].role == SearchResults
    ensures Refused(Full(ms, last, drops))
  {
    if drops {
      DroppedAt(ms, last, i, |ms|);
      assert !Renderable(Full(ms, last, drops), Pos(ms, last, i));
    } else {
      assert !Renderable(Full(ms, last, drops), i);
    }
  }

  /** A role without a branch refuses the conversation whenever it survives the drop: from the last turn on, or anywhere
      when nothing is dropped. */
  lemma OtherRoleRefused(ms: seq<Message>, last: int, drops: bool, i: nat)
    requires i < |ms| && ms[i].role == OtherRole && (!drops || i >= last)
    ensures Refused(Full(ms, last, drops))
  {
    if drops {
      DroppedAt(ms, last, i, |ms|);
      assert !Renderable(Full(ms, last, drops), Pos(ms, last, i));
    } else {
      assert !Renderable(Full(ms, last, drops), i);
    }
  }

  /** The conversation after both preprocessing passes. */
  function Prepared(messages: seq<Message>): seq<Message> {
    SortedMessages(Merged(messages), |Merged(messages)|)
  }

  /** Whether the drop pass runs. */
  ghost predicate Drops(ms: seq<Message>, thinking: bool, dropThinking: bool) {
    thinking && dropThinking && !AnyTools(ms)
  }

  /** Where message i of the prepared conversation is rendered. */
  ghost function PlaceOf(ms: seq<Message>, last: int, drops: bool, i: nat): nat
    requires i <= |ms|
  {
    if drops then Pos(ms, last, i) else i
  }

  ghost function Shown(ms: seq<Message>, last: int, thinking: bool, dropThinking: bool, i: nat): Option<string>
    requires i < |ms|
  {
    var task := i > 0 && ms[i - 1].task.Some?;
    if thinking && !task && (i > last || !dropThinking || AnyTools(ms)) then Some(ms[i].reasoning) else None
  }

  /** Assistant message i is rendered in its place and shows its reasoning when it should. */
  ghost predicate RenderedRight(ms: seq<Message>, last: int, thinking: bool, dropThinking: bool, out: seq<Rendered>,
                                i: nat)
    requires i < |ms|
  {
    var p := PlaceOf(ms, last, Drops(ms, thinking, dropThinking), i);
    && p < |out|
    && out[p].message == (if Drops(ms, thinking, dropThinking) && i < last then ms[i].(reasoning := "") else ms[i])
    && out[p].reasoning == Shown(ms, last, thinking, dropThinking, i)
  }

  /** The rendered assistant message at p comes from an assistant message of the prepared conversation. */
  ghost predicate ComesFrom(ms: seq<Message>, last: int, drops: bool, p: nat) {
    exists i: nat :: i < |ms| && ms[i].role == Assistant && PlaceOf(ms, last, drops, i) == p
  }

  /** Assistant messages are rendered at different places, in order. */
  ghost predicate InOrder(ms: seq<Message>, last: int, drops: bool) {
    forall i: nat, j: nat | i < j < |ms| && ms[i].role == Assistant && ms[j].role == Assistant ::
      PlaceOf(ms, last, drops, i) < PlaceOf(ms, last, drops, j)
  }

  lemma PlacesInOrder(ms: seq<Message>, last: int, drops: bool)
    ensures InOrder(ms, last, drops)
  {
    forall i: nat, j: nat | i < j < |ms| && ms[i].role == Assistant && ms[j].role == Assistant
      ensures PlaceOf(ms, last, drops, i) < PlaceOf(ms, last, drops, j)
    {
      DroppedAt(ms, last, i, j);
    }
  }

  /** encode_messages without context. Each assistant message of the prepared conversation is rendered once, in order,
      and shows its reasoning exactly when thinking is on, its predecessor carries no task, and it comes after the
      last turn's start or thinking is not dropped; no other assistant message is rendered. It raises, here None,
      exactly when some message that is left to render has no branch or not what its branch needs. */
  method EncodeMessages(messages: seq<Message>, thinking: bool, dropThinking: bool)
    returns (out: Option<seq<Rendered>>)
    ensures var ms := Prepared(messages);
      forall last: int | IsLastTurn(ms, last) ::
        out.None? <==> Refused(Full(ms, last, Drops(ms, thinking, dropThinking)))
    ensures var ms := Prepared(messages);
      out.Some? ==> forall last: int, i: nat | IsLastTurn(ms, last) && i < |ms| && ms[i].role == Assistant ::
        RenderedRight(ms, last, thinking, dropThinking, out.value, i)
    ensures var ms := Prepared(messages);
      forall last: int | IsLastTurn(ms, last) :: InOrder(ms, last, Drops(ms, thinking, dropThinking))
    ensures var ms := Prepared(messages);
      out.Some? ==>
        forall last: int, p: nat | IsLastTurn(ms, last) && p < |out.value| && out.value[p].message.role == Assistant ::
          ComesFrom(ms, last, Drops(ms, thinking, dropThinking), p)
  {
    var merged := MergeToolMessages(messages);
    var ms := SortToolResults(merged);
    var tools := HasTools(ms);
    var drop := dropThinking && !tools;
    var full := ms;
    if thinking && drop {
      full := DropThinking(ms);
    }
    var last' := FindLastUserIndex(full);
    out := Render(full, thinking, drop, last');
    forall last: int | IsLastTurn(ms, last)
      ensures full == Full(ms, last, Drops(ms, thinking, dropThinking))
      ensures InOrder(ms, last, Drops(ms, thinking, dropThinking))
    {
      PlacesInOrder(ms, last, Drops(ms, thinking, dropThinking));
    }
    if out.None? {
      return;
    }
    forall last: int, i: nat | IsLastTurn(ms, last) && i < |ms| && ms[i].role == Assistant
      ensures RenderedRight(ms, last, thinking, dropThinking, out.value, i)
    {
      if thinking && drop {
        ReasoningShownIff(ms, last, last', i);
        DroppedAt(ms, last, i, |ms|);
      } else {
        OneLastTurn(ms, last');
      }
    }
    forall last: int, p: nat | IsLastTurn(ms, last) && p < |out.value| && out.value[p].message.role == Assistant
      ensures ComesFrom(ms, last, Drops(ms, thinking, dropThinking), p)
    {
      if thinking && drop {
        var i := DroppedFrom(ms, last, |ms|, p);
        DroppedAt(ms, last, i, |ms|);
        assert PlaceOf(ms, last, true, i) == p;
      } else {
        assert PlaceOf(ms, last, false, p) == p;
      }
    }
  }

  lemma OneLastTurn(ms: seq<Message>, last: int)
    requires IsLastTurn(ms, last)
    ensures forall l: int | IsLastTurn(ms, l) :: l == last
  {
  }
}
