/** Session history with sequence numbers and summarisation (internal/app/assistant/service.go
    over the in-memory store of internal/infra/db/memory.go). Whether the token estimate exceeds
    the trigger, and what the summarising model answers, are arbitrary inputs. */
module SessionHistory {
  import opened Wrappers
  import G = GoStrings

  type SessionId = string

  const INT32_MAX := 0x7FFF_FFFF

  /** The value of a Go int32 expression. */
  function Int32(x: int): int {
    (x + 0x8000_0000) % 0x1_0000_0000 - 0x8000_0000
  }

  datatype Message = Message(role: string, content: string, provider: string, model: string, seqNo: int)

  datatype Session = Session(history: seq<Message>, compressedSeqMax: int, memorySummary: string,
                             activeProvider: string, activeModel: string)

  const FRESH := Session([], 0, "", "", "")

  const KEEP_RECENT := 4

  /** One append: the message without its number, whether compression triggers, and the summary
      if the model produces one. */
  datatype Append = Append(role: string, content: string, provider: string, model: string,
                           triggered: bool, summary: Option<string>)

  function Max(a: int, b: int): int {
    if a > b then a else b
  }

  function MaxSeq(history: seq<Message>): (m: int)
    ensures m >= 0
    ensures forall i :: 0 <= i < |history| ==> history[i].seqNo <= m
    ensures m == 0 || exists i :: 0 <= i < |history| && history[i].seqNo == m
  {
    if history == [] then 0
    else Max(MaxSeq(history[..|history| - 1]), history[|history| - 1].seqNo)
  }

  /** The largest number in use. */
  function TopSeq(s: Session): int {
    Max(MaxSeq(s.history), s.compressedSeqMax)
  }

  function Numbered(s: Session, a: Append): Message {
    Message(a.role, a.content, a.provider, a.model, Int32(TopSeq(s) + 1))
  }

  predicate Compresses(s: Session, a: Append) {
    a.triggered && a.summary.Some? && |s.history| + 1 > KEEP_RECENT
  }

  /** The messages an append takes out of the history into the summary. */
  function DroppedBy(s: Session, a: Append): seq<Message> {
    if Compresses(s, a) then (s.history + [Numbered(s, a)])[..|s.history| + 1 - KEEP_RECENT] else []
  }

  function Compressed(s: Session, summary: string): Session
    requires |s.history| > KEEP_RECENT
  {
    var n := |s.history| - KEEP_RECENT;
    s.(memorySummary := summary, history := s.history[n..], compressedSeqMax := s.history[n - 1].seqNo)
  }

  function Appended(s: Session, a: Append): Session {
    var s1 := s.(history := s.history + [Numbered(s, a)],
                 activeProvider := if a.provider != "" then a.provider else s.activeProvider,
                 activeModel := if a.model != "" then a.model else s.activeModel);
    if Compresses(s, a) then Compressed(s1, G.TrimSpace(a.summary.value)) else s1
  }

  // ---- The store and the service ----

  class AssistantService {
    var store: map<SessionId, Session>

    constructor ()
      ensures store == map[]
    {
      store := map[];
    }

    function Get(id: SessionId): Session
      reads this
    {
      if id in store then store[id] else FRESH
    }

    /** Fails, without a change, for the empty id: the store refuses to save it. */
    method AppendHistoryWithMeta(id: SessionId, a: Append) returns (ok: bool)
      modifies this
      ensures ok <==> id != ""
      ensures store == if ok then old(store)[id := Appended(old(Get(id)), a)] else old(store)
    {
      hide MaxSeq, G.TrimSpace;
      var sess := Get(id);
      var maxSeq := HighestSeq(sess.history);
      if sess.compressedSeqMax > maxSeq {
        maxSeq := sess.compressedSeqMax;
      }
      var msg := Message(a.role, a.content, a.provider, a.model, Int32(maxSeq + 1));
      sess := sess.(history := sess.history + [msg]);
      if a.provider != "" {
        sess := sess.(activeProvider := a.provider);
      }
      if a.model != "" {
        sess := sess.(activeModel := a.model);
      }
      if a.triggered {
        sess := CompressSessionIfNeeded(sess, a.summary);
      }
      ok := SaveSession(id, sess);
    }

    method SaveSession(id: SessionId, sess: Session) returns (ok: bool)
      modifies this
      ensures ok <==> id != ""
      ensures store == if ok then old(store)[id := sess] else old(store)
    {
      if id == "" {
        return false;
      }
      store := store[id := sess];
      ok := true;
    }

    method HighestSeq(history: seq<Message>) returns (maxSeq: int)
      ensures maxSeq == MaxSeq(history)
    {
      maxSeq := 0;
      for i := 0 to |history|
        invariant maxSeq == MaxSeq(history[..i])
      {
        assert history[..i + 1][..i] == history[..i];
        if history[i].seqNo > maxSeq {
          maxSeq := history[i].seqNo;
        }
      }
      assert history[..|history|] == history;
    }

    method CompressSessionIfNeeded(sess: Session, summary: Option<string>) returns (r: Session)
      ensures r == if |sess.history| > KEEP_RECENT && summary.Some? then
                     Compressed(sess, G.TrimSpace(summary.value))
                   else sess
    {
      if |sess.history| <= KEEP_RECENT || summary.None? {
        return sess;
      }
      var numToCompress := |sess.history| - KEEP_RECENT;
      var messagesToCompress := sess.history[..numToCompress];
      r := sess.(memorySummary := G.TrimSpace(summary.value), history := sess.history[numToCompress..]);
      if |messagesToCompress| > 0 {
        r := r.(compressedSeqMax := messagesToCompress[|messagesToCompress| - 1].seqNo);
      }
    }
  }

  // ---- The invariant of one session ----

  ghost predicate StrictlyIncreasing(ms: seq<Message>) {
    forall i, j :: 0 <= i < j < |ms| ==> ms[i].seqNo < ms[j].seqNo
  }

  /** The history is strictly increasing and lies above everything compressed so far. */
  ghost predicate SeqOk(s: Session) {
    && StrictlyIncreasing(s.history)
    && s.compressedSeqMax >= 0
    && forall i :: 0 <= i < |s.history| ==> s.history[i].seqNo > s.compressedSeqMax
  }

  lemma NumberedIsLast(s: Session, a: Append)
    requires -1 <= TopSeq(s) < INT32_MAX
    ensures Numbered(s, a).seqNo == TopSeq(s) + 1
  {
  }

  /** An append keeps the invariant exactly while the largest number can still be incremented in
      32 bits. At the limit the new number wraps below everything stored. */
  lemma AppendKeepsSeqOkIff(s: Session, a: Append)
    requires SeqOk(s) && TopSeq(s) <= INT32_MAX
    ensures SeqOk(Appended(s, a)) <==> TopSeq(s) < INT32_MAX
  {
    var s' := Appended(s, a);
    var msg := Numbered(s, a);
    var all := s.history + [msg];
    assert s'.history[|s'.history| - 1] == msg;
    if TopSeq(s) < INT32_MAX {
      NumberedIsLast(s, a);
      assert StrictlyIncreasing(all);
    } else {
      assert msg.seqNo == -0x8000_0000;
    }
  }

  // ---- Whole runs of one session ----

  /** A session together with all messages compression has taken out of it. */
  datatype Run = Run(session: Session, dropped: seq<Message>)

  function Runs(appends: seq<Append>): Run {
    if appends == [] then Run(FRESH, [])
    else
      var before := Runs(appends[..|appends| - 1]);
      var a := appends[|appends| - 1];
      Run(Appended(before.session, a), before.dropped + DroppedBy(before.session, a))
  }

  function Log(r: Run): seq<Message> {
    r.dropped + r.session.history
  }

  predicate SameText(m: Message, a: Append) {
    m.role == a.role && m.content == a.content && m.provider == a.provider && m.model == a.model
  }

  /** What one append does to the log: it adds the new message and nothing else. */
  lemma AppendExtendsLog(s: Session, dropped: seq<Message>, a: Append)
    ensures dropped + DroppedBy(s, a) + Appended(s, a).history == (dropped + s.history) + [Numbered(s, a)]
  {
    var all := s.history + [Numbered(s, a)];
    if Compresses(s, a) {
      var n := |s.history| + 1 - KEEP_RECENT;
      assert all == all[..n] + all[n..];
    }
  }

  ghost predicate RunOk(r: Run, appends: seq<Append>) {
    var log := Log(r);
    && |log| == |appends|
    && (forall i :: 0 <= i < |log| ==> log[i].seqNo == i + 1 && SameText(log[i], appends[i]))
    && r.session.compressedSeqMax == |r.dropped|
  }

  /** Over every run with appends that compress successfully, fail to, or do not try: the dropped
      messages followed by the stored history are all appended messages in order, numbered 1, 2,
      3, ..., so no number is ever reused, as long as there are fewer than 2^31 appends. */
  lemma {:induction false} RunsConserveMessages(appends: seq<Append>)
    requires |appends| <= INT32_MAX
    ensures RunOk(Runs(appends), appends)
  {
    if appends == [] {
    } else {
      hide *;
      var init, a := appends[..|appends| - 1], appends[|appends| - 1];
      assert appends == init + [a];
      RunsConserveMessages(init);
      RunsStep(init, a);
      RunGrows(Runs(init), init, a);
    }
  }

  lemma RunsStep(init: seq<Append>, a: Append)
    ensures var before := Runs(init);
            Runs(init + [a]) == Run(Appended(before.session, a), before.dropped + DroppedBy(before.session, a))
  {
    assert (init + [a])[..|init|] == init;
  }

  lemma RunGrows(before: Run, init: seq<Append>, a: Append)
    requires RunOk(before, init) && |init| < INT32_MAX
    ensures RunOk(Run(Appended(before.session, a), before.dropped + DroppedBy(before.session, a)), init + [a])
  {
    hide Appended, DroppedBy, Numbered, TopSeq;
    TopSeqOfRun(before, init);
    NumberedIsLast(before.session, a);
    AppendExtendsLog(before.session, before.dropped, a);
    DroppedCount(before, a);
    ExtendRunOk(before, Run(Appended(before.session, a), before.dropped + DroppedBy(before.session, a)), init, a);
  }

  lemma ExtendRunOk(before: Run, after: Run, init: seq<Append>, a: Append)
    requires RunOk(before, init) && Log(after) == Log(before) + [Numbered(before.session, a)]
    requires Numbered(before.session, a).seqNo == |init| + 1
    requires after.session.compressedSeqMax == |after.dropped|
    ensures RunOk(after, init + [a])
  {
    assert SameText(Numbered(before.session, a), a);
  }

  lemma HistoryOfRun(r: Run, appends: seq<Append>)
    requires RunOk(r, appends)
    ensures forall i :: 0 <= i < |r.session.history| ==> r.session.history[i].seqNo == |r.dropped| + i + 1
  {
    forall i | 0 <= i < |r.session.history| ensures r.session.history[i].seqNo == |r.dropped| + i + 1 {
      assert r.session.history[i] == Log(r)[|r.dropped| + i];
    }
  }

  lemma TopSeqOfRun(r: Run, appends: seq<Append>)
    requires RunOk(r, appends)
    ensures TopSeq(r.session) == |appends|
    ensures forall i :: 0 <= i < |r.session.history| ==> r.session.history[i].seqNo == |r.dropped| + i + 1
  {
    hide MaxSeq;
    HistoryOfRun(r, appends);
    var h := r.session.history;
    assert |r.dropped| + |h| == |appends|;
    if h != [] {
      assert h[|h| - 1].seqNo == |appends|;
    }
  }

  lemma DroppedCount(r: Run, a: Append)
    requires forall i :: 0 <= i < |r.session.history| ==> r.session.history[i].seqNo == |r.dropped| + i + 1
    requires r.session.compressedSeqMax == |r.dropped|
    ensures Appended(r.session, a).compressedSeqMax == |r.dropped + DroppedBy(r.session, a)|
  {
    var all := r.session.history + [Numbered(r.session, a)];
    if Compresses(r.session, a) {
      var n := |r.session.history| + 1 - KEEP_RECENT;
      assert all[n - 1] == r.session.history[n - 1];
    }
  }

  /** The bound is exact: the append number 2^31 of any run gets a negative number. */
  lemma NumbersWrapAt(appends: seq<Append>, a: Append)
    requires |appends| == INT32_MAX
    ensures var log := Log(Runs(appends + [a])); |log| == INT32_MAX + 1 && log[INT32_MAX].seqNo == -0x8000_0000
  {
    hide *;
    RunsConserveMessages(appends);
    TopSeqOfRun(Runs(appends), appends);
    NumberedWraps(Runs(appends).session, a);
    RunsStep(appends, a);
    LastOfLog(Runs(appends), appends, a);
  }

  lemma NumberedWraps(s: Session, a: Append)
    requires TopSeq(s) == INT32_MAX
    ensures Numbered(s, a).seqNo == -0x8000_0000
  {
  }

  lemma LastOfLog(r: Run, appends: seq<Append>, a: Append)
    requires RunOk(r, appends)
    ensures var log := Log(Run(Appended(r.session, a), r.dropped + DroppedBy(r.session, a)));
            |log| == |appends| + 1 && log[|appends|] == Numbered(r.session, a)
  {
    hide Appended, DroppedBy, Numbered;
    AppendExtendsLog(r.session, r.dropped, a);
  }

  /** The stored session of every run: strictly increasing numbers above the compressed ones. */
  lemma RunIsSeqOk(appends: seq<Append>)
    requires |appends| <= INT32_MAX
    ensures SeqOk(Runs(appends).session)
  {
    hide Runs;
    RunsConserveMessages(appends);
    HistoryOfRun(Runs(appends), appends);
  }

  /** One more append: the compressed maximum never falls, and a successful compression leaves
      exactly the last four messages of the log. */
  lemma AppendStep(appends: seq<Append>, a: Append)
    requires |appends| < INT32_MAX
    ensures var before, after := Runs(appends), Runs(appends + [a]);
            && before.session.compressedSeqMax <= after.session.compressedSeqMax
            && (if a.triggered && a.summary.Some? && |before.session.history| >= 4 then
                  && |after.session.history| == 4 && |Log(after)| == |appends| + 1 >= 4
                  && after.session.history == Log(after)[|appends| + 1 - 4..]
                  && after.session.memorySummary == G.TrimSpace(a.summary.value)
                else
                  && after.session.history == before.session.history + [Numbered(before.session, a)]
                  && after.session.memorySummary == before.session.memorySummary)
            && after.session.activeProvider == (if a.provider != "" then a.provider else before.session.activeProvider)
            && after.session.activeModel == (if a.model != "" then a.model else before.session.activeModel)
  {
    RunsConserveMessages(appends);
    RunsConserveMessages(appends + [a]);
    assert (appends + [a])[..|appends|] == appends;
    var before, after := Runs(appends), Runs(appends + [a]);
    assert after.dropped == before.dropped + DroppedBy(before.session, a);
    AppendedMeans(before.session, a);
    hide Runs, DroppedBy, Appended;
    TailOfLog(after);
  }

  lemma TailOfLog(r: Run)
    ensures Log(r)[|r.dropped|..] == r.session.history
  {
  }

  // ---- What one append stores ----

  /** An append compresses exactly if it triggers, the model answers, and there are four messages
      before it. Then the last four messages stay, the number of the last one taken out is kept, and the
      answer is the new summary; otherwise the message is added and nothing else changes but what is
      active. */
  lemma AppendedMeans(s: Session, a: Append)
    ensures var s', n := Appended(s, a), |s.history|;
            && (if a.triggered && a.summary.Some? && n >= 4 then
                  && s'.history == s.history[n - 3..] + [Numbered(s, a)]
                  && s'.compressedSeqMax == s.history[n - 4].seqNo
                  && s'.memorySummary == G.TrimSpace(a.summary.value)
                else
                  && s'.history == s.history + [Numbered(s, a)]
                  && s'.compressedSeqMax == s.compressedSeqMax && s'.memorySummary == s.memorySummary)
            && s'.activeProvider == (if a.provider != "" then a.provider else s.activeProvider)
            && s'.activeModel == (if a.model != "" then a.model else s.activeModel)
  {
    hide Numbered, G.TrimSpace;
    var n := |s.history|;
    if n >= 4 {
      assert (s.history + [Numbered(s, a)])[n - 3..] == s.history[n - 3..] + [Numbered(s, a)];
    }
  }

  /** Append number k of a run compresses. */
  predicate CompressesAt(appends: seq<Append>, k: nat)
    requires k < |appends|
  {
    appends[k].triggered && appends[k].summary.Some? && |Runs(appends[..k]).session.history| >= 4
  }

  lemma CompressesBefore(init: seq<Append>, a: Append, k: nat)
    requires k < |init|
    ensures CompressesAt(init + [a], k) <==> CompressesAt(init, k)
    ensures (init + [a])[k] == init[k]
  {
    assert (init + [a])[..k] == init[..k];
    hide Runs;
  }

  lemma CompressesLast(init: seq<Append>, a: Append)
    ensures CompressesAt(init + [a], |init|)
            <==> a.triggered && a.summary.Some? && |Runs(init).session.history| >= 4
  {
    assert (init + [a])[..|init|] == init;
    hide Runs;
  }

  /** The stored summary is the answer to the last append that compressed, and empty if none did. */
  ghost predicate SummaryIsLast(appends: seq<Append>, summary: string) {
    && ((forall k :: 0 <= k < |appends| ==> !CompressesAt(appends, k)) ==> summary == "")
    && forall k :: 0 <= k < |appends| && CompressesAt(appends, k)
                   && (forall j :: k < j < |appends| ==> !CompressesAt(appends, j)) ==>
         summary == G.TrimSpace(appends[k].summary.value)
  }

  lemma {:induction false} SummaryOfRun(appends: seq<Append>)
    ensures SummaryIsLast(appends, Runs(appends).session.memorySummary)
  {
    hide *;
    if appends == [] {
      EmptyRun();
    } else {
      var init, a := appends[..|appends| - 1], appends[|appends| - 1];
      assert appends == init + [a];
      SummaryOfRun(init);
      RunsStep(init, a);
      AppendedMeans(Runs(init).session, a);
      SummaryNext(init, a, Runs(init).session.memorySummary, Runs(appends).session.memorySummary);
    }
  }

  lemma EmptyRun()
    ensures SummaryIsLast([], Runs([]).session.memorySummary)
    ensures ActiveIsLast([], Runs([]).session.activeProvider, Runs([]).session.activeModel)
  {
  }

  lemma SummaryNext(init: seq<Append>, a: Append, before: string, after: string)
    requires SummaryIsLast(init, before)
    requires after == if a.triggered && a.summary.Some? && |Runs(init).session.history| >= 4
                      then G.TrimSpace(a.summary.value) else before
    ensures SummaryIsLast(init + [a], after)
  {
    var all := init + [a];
    CompressesLast(init, a);
    forall k | 0 <= k < |init| ensures CompressesAt(all, k) <==> CompressesAt(init, k) {
      CompressesBefore(init, a, k);
    }
    hide Runs, CompressesAt, G.TrimSpace;
    forall k | 0 <= k < |all| && CompressesAt(all, k) && (forall j :: k < j < |all| ==> !CompressesAt(all, j))
      ensures after == G.TrimSpace(all[k].summary.value)
    {
      if k < |init| {
        CompressesBefore(init, a, k);
        assert !CompressesAt(all, |init|);
        assert forall j :: k < j < |init| ==> !CompressesAt(init, j);
      }
    }
  }

  /** The active provider and model are the last ones given, and empty if none was. */
  ghost predicate ActiveIsLast(appends: seq<Append>, provider: string, model: string) {
    && ((forall k :: 0 <= k < |appends| ==> appends[k].provider == "") ==> provider == "")
    && ((forall k :: 0 <= k < |appends| ==> appends[k].model == "") ==> model == "")
    && (forall k :: 0 <= k < |appends| && appends[k].provider != ""
                    && (forall j :: k < j < |appends| ==> appends[j].provider == "") ==>
          provider == appends[k].provider)
    && (forall k :: 0 <= k < |appends| && appends[k].model != ""
                    && (forall j :: k < j < |appends| ==> appends[j].model == "") ==>
          model == appends[k].model)
  }

  lemma {:induction false} ActiveOfRun(appends: seq<Append>)
    ensures ActiveIsLast(appends, Runs(appends).session.activeProvider, Runs(appends).session.activeModel)
  {
    hide *;
    if appends == [] {
      EmptyRun();
    } else {
      var init, a := appends[..|appends| - 1], appends[|appends| - 1];
      assert appends == init + [a];
      ActiveOfRun(init);
      RunsStep(init, a);
      AppendedMeans(Runs(init).session, a);
      ActiveNext(init, a, Runs(init).session, Runs(appends).session);
    }
  }

  lemma ActiveNext(init: seq<Append>, a: Append, before: Session, after: Session)
    requires ActiveIsLast(init, before.activeProvider, before.activeModel)
    requires after.activeProvider == (if a.provider != "" then a.provider else before.activeProvider)
    requires after.activeModel == (if a.model != "" then a.model else before.activeModel)
    ensures ActiveIsLast(init + [a], after.activeProvider, after.activeModel)
  {
    var all := init + [a];
    assert all[|init|] == a && forall k :: 0 <= k < |init| ==> all[k] == init[k];
    forall k | 0 <= k < |all| && all[k].provider != "" && (forall j :: k < j < |all| ==> all[j].provider == "")
      ensures after.activeProvider == all[k].provider
    {
      if k < |init| {
        assert forall j :: k < j < |init| ==> init[j].provider == all[j].provider;
        assert all[|init|].provider == "";
      }
    }
    forall k | 0 <= k < |all| && all[k].model != "" && (forall j :: k < j < |all| ==> all[j].model == "")
      ensures after.activeModel == all[k].model
    {
      if k < |init| {
        assert forall j :: k < j < |init| ==> init[j].model == all[j].model;
        assert all[|init|].model == "";
      }
    }
    if forall k :: 0 <= k < |all| ==> all[k].provider == "" {
      assert forall k :: 0 <= k < |init| ==> init[k].provider == all[k].provider;
    }
    if forall k :: 0 <= k < |all| ==> all[k].model == "" {
      assert forall k :: 0 <= k < |init| ==> init[k].model == all[k].model;
    }
  }
}
