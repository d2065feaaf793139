/** The acceptance-time context snapshot: which recent messages it keeps, how it is cut
    to its byte limit, and the check that lets a drain trust it later. */
module Snapshot {
  import opened Wrappers
  import opened Decimal
  import opened Excerpt

  const CONTEXT_ROLE_LIMIT := 5
  const CONTEXT_SNAPSHOT_BYTES_LIMIT := 16 * 1024

  datatype Role = User | Assistant | OtherRole

  datatype Message = Message(id: seq<Point>, role: Role, content: seq<Point>, ts: nat)

  // ----- Sizes -----

  /** What `JSON.stringify` writes around the two lists, and around one message; every
      character of either is one byte. */
  const WRAPPER: string := "{\"bridge_context\":[],\"assistant_context\":[]}"
  const ITEM: string := "{\"id\":\"\",\"content\":\"\",\"ts\":}"
  const WRAPPER_BYTES := |WRAPPER|
  const ITEM_BYTES := |ITEM|

  function ItemOverhead(m: Message): nat {
    ITEM_BYTES + Bytes(m.id) + |Show(m.ts)|
  }

  function CountRole(messages: seq<Message>, role: Role): nat {
    if messages == [] then 0
    else CountRole(messages[..|messages| - 1], role) + (if messages[|messages| - 1].role == role then 1 else 0)
  }

  function ItemsBytes(messages: seq<Message>): nat {
    if messages == [] then 0
    else
      var last := messages[|messages| - 1];
      ItemsBytes(messages[..|messages| - 1]) + ItemOverhead(last) + Bytes(last.content)
  }

  function Commas(items: nat): nat {
    if items == 0 then 0 else items - 1
  }

  /** The serialized model context: user messages in one list, assistant ones in another. */
  function ContextBytes(messages: seq<Message>): nat {
    WRAPPER_BYTES + ItemsBytes(messages) + Commas(CountRole(messages, User)) + Commas(CountRole(messages, Assistant))
  }

  predicate WithinLimit(messages: seq<Message>) {
    ContextBytes(messages) <= CONTEXT_SNAPSHOT_BYTES_LIMIT
  }

  // ----- Selection -----

  predicate Eligible(m: Message, excluded: set<seq<Point>>) {
    m.role == Assistant || (m.role == User && m.id !in excluded)
  }

  function EligibleOf(recent: seq<Message>, excluded: set<seq<Point>>): (eligible: seq<Message>)
    ensures IsSubsequence(eligible, recent)
  {
    if recent == [] then []
    else
      var rest := EligibleOf(recent[..|recent| - 1], excluded);
      if Eligible(recent[|recent| - 1], excluded) then rest + [recent[|recent| - 1]] else rest
  }

  predicate ForContext(m: Message, excluded: set<seq<Point>>) {
    m.role != OtherRole && !(m.role == User && m.id in excluded)
  }

  /** Eligible are exactly the user messages not excluded and the assistant ones, each as
      often as it was there. */
  lemma {:induction false} EligibleExactly(recent: seq<Message>, excluded: set<seq<Point>>, m: Message)
    ensures multiset(EligibleOf(recent, excluded))[m] == if ForContext(m, excluded) then multiset(recent)[m] else 0
  {
    if recent != [] {
      var before, last := recent[..|recent| - 1], recent[|recent| - 1];
      EligibleExactly(before, excluded, m);
      assert recent == before + [last];
    }
  }

  /** `a` is `b` with some messages left out, order kept. */
  predicate IsSubsequence(a: seq<Message>, b: seq<Message>)
    decreases |b|
  {
    if a == [] then true
    else if b == [] then false
    else if a[|a| - 1] == b[|b| - 1] && IsSubsequence(a[..|a| - 1], b[..|b| - 1]) then true
    else IsSubsequence(a, b[..|b| - 1])
  }

  /** The last messages of each role in their common order, with `users` and `assistants`
      still to be taken. */
  function LastOfEach(messages: seq<Message>, users: nat, assistants: nat): seq<Message> {
    if messages == [] then []
    else
      var before, last := messages[..|messages| - 1], messages[|messages| - 1];
      match last.role
      case User => if users > 0 then LastOfEach(before, users - 1, assistants) + [last] else LastOfEach(before, users, assistants)
      case Assistant => if assistants > 0 then LastOfEach(before, users, assistants - 1) + [last] else LastOfEach(before, users, assistants)
      case OtherRole => LastOfEach(before, users, assistants)
  }

  function OfRole(messages: seq<Message>, role: Role): seq<Message> {
    if messages == [] then []
    else
      var rest := OfRole(messages[..|messages| - 1], role);
      if messages[|messages| - 1].role == role then rest + [messages[|messages| - 1]] else rest
  }

  function Suffix(messages: seq<Message>, n: nat): seq<Message> {
    if |messages| <= n then messages else messages[|messages| - n..]
  }

  lemma OfRoleSnoc(messages: seq<Message>, last: Message, role: Role)
    ensures OfRole(messages + [last], role) == OfRole(messages, role) + (if last.role == role then [last] else [])
    ensures CountRole(messages + [last], role) == CountRole(messages, role) + (if last.role == role then 1 else 0)
  {
    assert (messages + [last])[..|messages|] == messages;
  }

  predicate IsSelection(kept: seq<Message>, messages: seq<Message>, users: nat, assistants: nat) {
    && IsSubsequence(kept, messages)
    && OfRole(kept, User) == Suffix(OfRole(messages, User), users)
    && OfRole(kept, Assistant) == Suffix(OfRole(messages, Assistant), assistants)
    && |kept| <= |messages|
  }

  lemma KeepLast(kept: seq<Message>, before: seq<Message>, last: Message, users: nat, assistants: nat)
    requires IsSelection(kept, before, users, assistants)
    ensures last.role == User ==> IsSelection(kept + [last], before + [last], users + 1, assistants)
    ensures last.role == Assistant ==> IsSelection(kept + [last], before + [last], users, assistants + 1)
  {
    SnocSubsequence(kept, before, last);
    OfRoleSnoc(kept, last, User);
    OfRoleSnoc(kept, last, Assistant);
    OfRoleSnoc(before, last, User);
    OfRoleSnoc(before, last, Assistant);
    hide IsSubsequence, OfRole;
  }

  lemma SkipLast(kept: seq<Message>, before: seq<Message>, last: Message, users: nat, assistants: nat)
    requires IsSelection(kept, before, users, assistants)
    requires (last.role == User ==> users == 0) && (last.role == Assistant ==> assistants == 0)
    ensures IsSelection(kept, before + [last], users, assistants)
  {
    SkipSubsequence(kept, before, last);
    OfRoleSnoc(before, last, User);
    OfRoleSnoc(before, last, Assistant);
    hide IsSubsequence, OfRole;
  }

  /** The selection is, role by role, the most recent messages. */
  lemma {:induction false} SelectsMostRecent(messages: seq<Message>, users: nat, assistants: nat)
    ensures IsSelection(LastOfEach(messages, users, assistants), messages, users, assistants)
  {
    if messages != [] {
      var before, last := messages[..|messages| - 1], messages[|messages| - 1];
      assert before + [last] == messages;
      hide IsSelection;
      if last.role == User && users > 0 {
        SelectsMostRecent(before, users - 1, assistants);
        KeepLast(LastOfEach(before, users - 1, assistants), before, last, users - 1, assistants);
      } else if last.role == Assistant && assistants > 0 {
        SelectsMostRecent(before, users, assistants - 1);
        KeepLast(LastOfEach(before, users, assistants - 1), before, last, users, assistants - 1);
      } else {
        SelectsMostRecent(before, users, assistants);
        SkipLast(LastOfEach(before, users, assistants), before, last, users, assistants);
      }
    }
  }

  lemma SnocSubsequence(a: seq<Message>, b: seq<Message>, last: Message)
    requires IsSubsequence(a, b)
    ensures IsSubsequence(a + [last], b + [last])
  {
    assert (a + [last])[..|a|] == a && (b + [last])[..|b|] == b;
  }

  lemma SkipSubsequence(a: seq<Message>, b: seq<Message>, last: Message)
    requires IsSubsequence(a, b)
    ensures IsSubsequence(a, b + [last])
  {
    assert (b + [last])[..|b|] == b;
  }

  // ----- Cutting to the limit -----

  predicate ContextRoles(messages: seq<Message>) {
    forall i :: 0 <= i < |messages| ==> messages[i].role == User || messages[i].role == Assistant
  }

  predicate WithinRoles(messages: seq<Message>) {
    && ContextRoles(messages)
    && CountRole(messages, User) <= CONTEXT_ROLE_LIMIT
    && CountRole(messages, Assistant) <= CONTEXT_ROLE_LIMIT
  }

  lemma {:induction false} CountOfRole(messages: seq<Message>, role: Role)
    ensures CountRole(messages, role) == |OfRole(messages, role)|
  {
    if messages != [] {
      CountOfRole(messages[..|messages| - 1], role);
    }
  }

  lemma {:induction false} SelectedRoles(messages: seq<Message>, users: nat, assistants: nat)
    ensures ContextRoles(LastOfEach(messages, users, assistants))
  {
    if messages != [] {
      var before := messages[..|messages| - 1];
      match messages[|messages| - 1].role
      case User => SelectedRoles(before, if users > 0 then users - 1 else users, assistants);
      case Assistant => SelectedRoles(before, users, if assistants > 0 then assistants - 1 else assistants);
      case OtherRole => SelectedRoles(before, users, assistants);
    }
  }

  lemma SelectionWithinRoles(messages: seq<Message>)
    ensures WithinRoles(LastOfEach(messages, CONTEXT_ROLE_LIMIT, CONTEXT_ROLE_LIMIT))
  {
    var kept := LastOfEach(messages, CONTEXT_ROLE_LIMIT, CONTEXT_ROLE_LIMIT);
    SelectsMostRecent(messages, CONTEXT_ROLE_LIMIT, CONTEXT_ROLE_LIMIT);
    SelectedRoles(messages, CONTEXT_ROLE_LIMIT, CONTEXT_ROLE_LIMIT);
    CountOfRole(kept, User);
    CountOfRole(kept, Assistant);
  }

  lemma {:induction false} CountTail(messages: seq<Message>, role: Role)
    requires messages != []
    ensures CountRole(messages[1..], role) <= CountRole(messages, role)
  {
    if |messages| > 1 {
      CountTail(messages[..|messages| - 1], role);
      assert messages[..|messages| - 1][1..] == messages[1..][..|messages[1..]| - 1];
    }
  }

  lemma {:induction false} TwoRolesMakeAll(messages: seq<Message>)
    requires ContextRoles(messages)
    ensures |messages| == CountRole(messages, User) + CountRole(messages, Assistant)
  {
    if messages != [] {
      TwoRolesMakeAll(messages[..|messages| - 1]);
    }
  }

  datatype Mode = AcceptedSnapshot | LegacyEmpty | InvalidEmpty

  /** The trace stored beside a snapshot. A hash is modelled by what it hashes. */
  datatype Trace = Trace(
    mode: Mode, contextHash: Option<string>, hashOf: seq<Message>, messages: nat,
    userMessages: nat, assistantMessages: nat, serializedBytes: nat, omitted: nat, truncated: nat)

  function TraceOf(snapshot: seq<Message>, contextKey: Option<string>, omitted: nat, truncated: nat): Trace {
    Trace(AcceptedSnapshot, contextKey, snapshot, |snapshot|, CountRole(snapshot, User), CountRole(snapshot, Assistant),
          ContextBytes(snapshot), omitted, truncated)
  }

  /** The longest run of the latest selected messages that fits; failing that, the last
      message cut to the longest excerpt that fits; failing that, nothing. */
  predicate IsCut(snapshot: seq<Message>, selected: seq<Message>) {
    var d := |selected| - |snapshot|;
    && d >= 0
    && (forall e :: 0 <= e < d && e < |selected| - 1 ==> !WithinLimit(selected[e..]))
    && (snapshot == selected[d..]
        || (|snapshot| == 1 && !WithinLimit(selected[d..]) && IsExcerpt(snapshot[0], selected[d])))
    && (snapshot == [] && selected != [] ==>
          !WithinLimit(selected[d - 1..]) && LongestExcerpt(selected[d - 1], None))
  }

  predicate LongestExcerpt(original: Message, keep: Option<nat>) {
    IsLargest(original.content, WRAPPER_BYTES + ItemOverhead(original), CONTEXT_SNAPSHOT_BYTES_LIMIT, keep)
  }

  predicate IsExcerpt(m: Message, original: Message) {
    exists keep: nat :: keep < |original.content| && LongestExcerpt(original, Some(keep))
                        && m == original.(content := Kept(original.content, keep))
  }

  lemma OneMessageBytes(m: Message)
    ensures ContextBytes([m]) == WRAPPER_BYTES + ItemOverhead(m) + Bytes(m.content)
    ensures m.role == User || m.role == Assistant ==> WithinRoles([m])
  {
    hide ItemOverhead, Bytes;
    assert [m][..0] == [];
    assert ItemsBytes([m]) == ItemsBytes([]) + ItemOverhead(m) + Bytes(m.content);
    assert CountRole([m], User) == CountRole([], User) + (if m.role == User then 1 else 0);
    assert CountRole([m], Assistant) == CountRole([], Assistant) + (if m.role == Assistant then 1 else 0);
  }

  lemma SameOverhead(m: Message, content: seq<Point>)
    ensures ItemOverhead(m.(content := content)) == ItemOverhead(m)
  {
  }

  lemma TailWithinRoles(messages: seq<Message>)
    requires messages != [] && WithinRoles(messages)
    ensures WithinRoles(messages[1..])
  {
    CountTail(messages, User);
    CountTail(messages, Assistant);
  }

  lemma WithinRolesHasRole(messages: seq<Message>)
    requires messages != [] && WithinRoles(messages)
    ensures messages[0].role == User || messages[0].role == Assistant
  {
  }

  method Capture(recent: seq<Message>, excluded: set<seq<Point>>, contextKey: Option<string>)
    returns (snapshot: seq<Message>, trace: Trace)
    ensures var eligible := EligibleOf(recent, excluded);
            && IsCut(snapshot, LastOfEach(eligible, CONTEXT_ROLE_LIMIT, CONTEXT_ROLE_LIMIT))
            && trace == TraceOf(snapshot, contextKey, trace.omitted, trace.truncated)
            && |snapshot| + trace.omitted == |eligible|
    ensures WithinRoles(snapshot) && WithinLimit(snapshot)
    ensures var selected := LastOfEach(EligibleOf(recent, excluded), 5, 5);
            |snapshot| <= |selected| && trace.truncated == if snapshot == selected[|selected| - |snapshot|..] then 0 else 1
  {
    hide Bytes, Kept, ItemOverhead, LastOfEach, IsLargest, IsFound, ContextBytes, CountRole, WithinLimit, WithinRoles,
      IsExcerpt, LongestExcerpt;
    NothingIsWithin();
    var eligible := EligibleOf(recent, excluded);
    var selected := LastOfEach(eligible, CONTEXT_ROLE_LIMIT, CONTEXT_ROLE_LIMIT);
    SelectsMostRecent(eligible, CONTEXT_ROLE_LIMIT, CONTEXT_ROLE_LIMIT);
    SelectionWithinRoles(eligible);
    snapshot := selected;
    var omitted, truncated := |eligible| - |selected|, 0;
    while |snapshot| > 1 && !WithinLimit(snapshot)
      invariant |snapshot| <= |selected| && snapshot == selected[|selected| - |snapshot|..]
      invariant selected != [] ==> snapshot != []
      invariant forall e :: 0 <= e < |selected| - |snapshot| ==> !WithinLimit(selected[e..])
      invariant WithinRoles(snapshot)
      invariant |snapshot| + omitted == |eligible|
    {
      TailWithinRoles(snapshot);
      snapshot, omitted := snapshot[1..], omitted + 1;
    }
    if |snapshot| == 1 && !WithinLimit(snapshot) {
      var original := snapshot[0];
      assert snapshot == [original];
      WithinRolesHasRole(snapshot);
      var keep := TruncateToBudget(original.content, WRAPPER_BYTES + ItemOverhead(original), CONTEXT_SNAPSHOT_BYTES_LIMIT);
      CutLast(original, keep);
      if keep.Some? {
        snapshot := [original.(content := Kept(original.content, keep.value))];
        truncated := if snapshot[0].content == original.content then 0 else 1;
      } else {
        snapshot, omitted := [], omitted + 1;
      }
    }
    trace := TraceOf(snapshot, contextKey, omitted, truncated);
  }

  /** A message that does not fit whole is cut to its longest excerpt, which fits. */
  lemma CutLast(original: Message, keep: Option<nat>)
    requires original.role == User || original.role == Assistant
    requires !WithinLimit([original])
    requires IsFound(original.content, WRAPPER_BYTES + ItemOverhead(original), CONTEXT_SNAPSHOT_BYTES_LIMIT, keep)
    ensures LongestExcerpt(original, keep)
    ensures keep.Some? ==> keep.value < |original.content|
    ensures keep.Some? ==> var m := original.(content := Kept(original.content, keep.value));
                           WithinLimit([m]) && WithinRoles([m]) && IsExcerpt(m, original)
    ensures WithinLimit([]) && WithinRoles([])
  {
    hide Bytes, Kept, ItemOverhead, CountRole, ItemsBytes, WithinRoles, Fits, ContextBytes;
    var overhead := WRAPPER_BYTES + ItemOverhead(original);
    var text := original.content;
    OneMessageBytes(original);
    FitsMeansWithin(original, |text|);
    assert original.(content := Kept(text, |text|)) == original by { KeptWhole(text); }
    if keep.Some? {
      FitsMeansWithin(original, keep.value);
      OneMessageBytes(original.(content := Kept(text, keep.value)));
    }
    NothingIsWithin();
  }

  lemma KeptWhole(text: seq<Point>)
    ensures Kept(text, |text|) == text
  {
  }

  lemma NothingIsWithin()
    ensures WithinRoles([]) && WithinLimit([])
  {
  }

  lemma FitsMeansWithin(original: Message, keep: nat)
    requires keep <= |original.content|
    ensures Fits(original.content, keep, WRAPPER_BYTES + ItemOverhead(original), CONTEXT_SNAPSHOT_BYTES_LIMIT)
            <==> WithinLimit([original.(content := Kept(original.content, keep))])
  {
    var m := original.(content := Kept(original.content, keep));
    OneMessageBytes(m);
    SameOverhead(original, m.content);
    hide Bytes, Kept, ItemOverhead, CountRole, ItemsBytes, ContextBytes;
  }

  // ----- Trusting it later -----

  /** `validatedEntryContext`: the snapshot if every check passes, else nothing. */
  function Validated(stored: Option<seq<Message>>, trace: Trace, contextKey: Option<string>): (seq<Message>, Mode) {
    match stored
    case None => ([], LegacyEmpty)
    case Some(s) =>
      if |s| <= 2 * CONTEXT_ROLE_LIMIT && WithinRoles(s) && WithinLimit(s)
         && trace.mode == AcceptedSnapshot && contextKey.Some?
         && trace.contextHash == contextKey && trace.hashOf == s
         && trace.messages == |s|
         && trace.userMessages == CountRole(s, User) && trace.assistantMessages == CountRole(s, Assistant)
         && trace.serializedBytes == ContextBytes(s)
      then (s, AcceptedSnapshot)
      else ([], InvalidEmpty)
  }

  /** A stored snapshot is accepted exactly when it keeps the limits and its trace is, in
      every column, the one its capture under this context key leaves. */
  lemma TrustedExactly(stored: seq<Message>, trace: Trace, contextKey: Option<string>)
    ensures Validated(Some(stored), trace, contextKey)
            == if WithinRoles(stored) && WithinLimit(stored) && contextKey.Some?
                  && trace == TraceOf(stored, contextKey, trace.omitted, trace.truncated)
               then (stored, AcceptedSnapshot) else ([], InvalidEmpty)
    ensures Validated(None, trace, contextKey) == ([], LegacyEmpty)
  {
    if WithinRoles(stored) { TwoRolesMakeAll(stored); }
    hide WithinLimit, CountRole, ContextBytes;
  }

  /** A captured snapshot is accepted unchanged under its own valid context key - and
      with its trace nothing else is accepted, under no other key. */
  lemma CapturedIsTrusted(snapshot: seq<Message>, omitted: nat, truncated: nat, captured: Option<string>,
                          stored: seq<Message>, contextKey: Option<string>)
    requires WithinRoles(snapshot) && WithinLimit(snapshot)
    ensures var trace := TraceOf(snapshot, captured, omitted, truncated);
            Validated(Some(stored), trace, contextKey)
            == if stored == snapshot && contextKey.Some? && contextKey == captured then (snapshot, AcceptedSnapshot) else ([], InvalidEmpty)
  {
    TwoRolesMakeAll(snapshot);
    hide WithinRoles, WithinLimit, CountRole;
  }
}
