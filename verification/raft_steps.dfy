/** One pure function for every mutex-held region of src/raft/raft.go: the server before the
    region, the server after it, and the reply or request it produces. */
module RaftSteps {
  import opened Collections
  import opened RaftTypes

  // ---------------------------------------------------------------- elections

  function OnRequestVote(s: Server, a: VoteArgs): (Server, VoteReply) {
    if a.term < s.currentTerm then
      (s, VoteReply(s.currentTerm, false))
    else
      var s1 := if a.term > s.currentTerm
                then s.(currentTerm := a.term, votedFor := NOBODY, role := Follower)
                else s;
      var grant := (s1.votedFor == NOBODY || s1.votedFor == a.candidate)
                   && UpToDate(a.lastTerm, a.lastIndex, s.LastTerm(), s.LastIndex());
      var s2 := if grant then s1.(votedFor := a.candidate) else s1;
      (s2.Persist(), VoteReply(s1.currentTerm, grant))
  }

  /** The first lock region of `doElection`, once the deadline has passed. */
  function OnTimeout(s: Server): (Server, VoteArgs) {
    var s1 := s.(currentTerm := s.currentTerm + 1, role := Candidate, votedFor := s.me, votes := 1).Persist();
    (s1, VoteArgs(s1.currentTerm, s.me, s.LastIndex(), s.LastTerm()))
  }

  /** Adopting a newer term seen in a reply. */
  function StepDown(s: Server, term: nat): Server {
    s.(currentTerm := term, role := Follower, votedFor := NOBODY).Persist()
  }

  /** `initLeaderIndex`. */
  function LeaderIndices(s: Server): Server {
    s.(nextIndex := seq(s.peers, _ => s.LastIndex() + 1),
       matchIndex := seq(s.peers, i => if i == s.me then s.LastIndex() else 0))
  }

  /** The second lock region of `doElection`, for a call that returned a reply. */
  function OnVoteReply(s: Server, term: nat, r: VoteReply): Server {
    if s.currentTerm != term || s.role != Candidate then s
    else if r.term > s.currentTerm then StepDown(s, r.term)
    else if !r.granted then s
    else
      var s1 := s.(votes := s.votes + 1);
      if s1.votes > s1.peers / 2 then LeaderIndices(s1.(role := Leader)) else s1
  }

  // ---------------------------------------------------------------- replication

  /** The follower's consistency check of section 5.3, on the entries it still has. */
  predicate Matches(s: Server, a: AppendArgs) {
    s.snapIndex <= a.prevIndex <= s.LastIndex() && s.TermOf(a.prevIndex) == a.prevTerm
  }

  /** The start of the run of equal terms that ends at `index`, among the retained entries. */
  function RunStart(s: Server, index: nat): (first: nat)
    requires s.snapIndex < index <= s.LastIndex()
    ensures s.snapIndex < first <= index
    ensures forall j {:trigger s.TermOf(j)} :: first <= j <= index ==> s.TermOf(j) == s.TermOf(index)
    ensures first > s.snapIndex + 1 ==> s.TermOf(first - 1) != s.TermOf(index)
    decreases index
  {
    if index > s.snapIndex + 1 && s.TermOf(index - 1) == s.TermOf(index)
    then RunStart(s, index - 1)
    else index
  }

  /** The reply to an append request that failed the check. */
  function Rejection(s: Server, a: AppendArgs, term: nat): AppendReply {
    if a.prevIndex > s.LastIndex() then AppendReply(term, false, -1, 0, s.LastIndex() + 1)
    else if a.prevIndex <= s.snapIndex then AppendReply(term, false, 0, 0, 0)
    else AppendReply(term, false, s.TermOf(a.prevIndex), RunStart(s, a.prevIndex), 0)
  }

  /** The retained log after an accepted append: everything after `prevIndex` is replaced. */
  function Spliced(s: Server, a: AppendArgs): seq<Entry>
    requires s.snapIndex <= a.prevIndex <= s.LastIndex()
  {
    s.log[..a.prevIndex - s.snapIndex] + a.entries
  }

  function OnAppend(s: Server, a: AppendArgs): (Server, AppendReply) {
    if a.term < s.currentTerm then
      (s, AppendReply(s.currentTerm, false, 0, 0, 0))
    else
      var s1 := if a.term > s.currentTerm
                then s.(currentTerm := a.term, votedFor := NOBODY).Persist()
                else s;
      var s2 := s1.(role := Follower);
      if !Matches(s2, a) then
        (s2, Rejection(s2, a, s.currentTerm))
      else
        var s3 := s2.(log := Spliced(s2, a));
        var s4 := s3.(commitIndex := Min(Max(s3.commitIndex, a.leaderCommit), s3.LastIndex()),
                      lastApplied := Min(s3.lastApplied, s3.LastIndex()));
        (s4.Persist(), AppendReply(s4.currentTerm, true, 0, 0, 0))
  }

  /** How many peers are known to store the leader's log up to `n`. */
  function Agreeing(matchIndex: seq<nat>, n: nat): (count: nat)
    ensures count <= |matchIndex|
  {
    if |matchIndex| == 0 then 0
    else Agreeing(matchIndex[..|matchIndex| - 1], n) + if matchIndex[|matchIndex| - 1] >= n then 1 else 0
  }

  /** Whether `advanceCommit` accepts index `n`. */
  predicate Committable(s: Server, n: nat)
    requires n <= s.LastIndex()
  {
    && (if n <= s.snapIndex then s.snapTerm else s.TermOf(n)) == s.currentTerm
    && Agreeing(s.matchIndex, n) > s.peers / 2
  }

  /** The greatest committable index in (commitIndex, n], or commitIndex when there is none. */
  function CommitPoint(s: Server, n: nat): (r: nat)
    requires n <= s.LastIndex()
    ensures r == s.commitIndex || (s.commitIndex < r <= n && Committable(s, r))
    ensures forall k {:trigger Committable(s, k)} :: r < k <= n && s.commitIndex < k ==> !Committable(s, k)
    decreases n
  {
    if n <= s.commitIndex then s.commitIndex
    else if Committable(s, n) then n
    else CommitPoint(s, n - 1)
  }

  function AdvanceCommit(s: Server): Server {
    s.(commitIndex := CommitPoint(s, s.LastIndex()))
  }

  /** The last offset in 1..hi whose entry has the term, or 0 when there is none. Offset 0 is never
      inspected, as in the source. */
  function LastOffset(log: seq<Entry>, term: int, hi: nat): (i: nat)
    requires hi < |log| || hi == 0
    ensures i <= hi
    ensures i > 0 ==> log[i].term == term
    ensures forall j :: i < j <= hi ==> log[j].term != term
    decreases hi
  {
    if hi == 0 then 0
    else if log[hi].term == term then hi
    else LastOffset(log, term, hi - 1)
  }

  /** The fast back-up rule of the leader. */
  function BackUp(log: seq<Entry>, r: AppendReply): (next: nat)
    ensures next >= 1
  {
    var i := if |log| == 0 then 0 else LastOffset(log, r.xTerm, |log| - 1);
    Max(1, if r.xTerm == -1 then r.xLen else if i > 0 then i + 1 else r.xIndex)
  }

  /** `processAppendEntriesReply`. */
  function OnAppendReply(s: Server, peer: nat, a: AppendArgs, r: AppendReply): Server
    requires peer < |s.nextIndex| && peer < |s.matchIndex|
  {
    if s.currentTerm != a.term || s.role != Leader then s
    else if r.term > s.currentTerm then StepDown(s, r.term)
    else if r.success then
      var newMatch := a.prevIndex + |a.entries|;
      AdvanceCommit(s.(matchIndex := s.matchIndex[peer := Max(s.matchIndex[peer], newMatch)],
                       nextIndex := s.nextIndex[peer := newMatch + 1]))
    else s.(nextIndex := s.nextIndex[peer := BackUp(s.log, r)])
  }

  /** The append part of `Start`. */
  function OnStart(s: Server, command: Command): Server
    requires s.me < |s.matchIndex|
  {
    if s.role != Leader then s
    else s.(log := s.log + [Entry(s.currentTerm, command)],
            matchIndex := s.matchIndex[s.me := s.LastIndex() + 1]).Persist()
  }

  /** Slicing the log for `peer` stays in range (in the broadcasts of `Start` and `ticker`). */
  predicate InRange(s: Server, peer: nat) {
    peer < |s.nextIndex| && s.snapIndex < s.nextIndex[peer] <= s.LastIndex() + 1
  }

  /** The request that `Start` and `ticker` build for one peer that is not behind the snapshot. */
  function AppendFor(s: Server, peer: nat): AppendArgs
    requires InRange(s, peer)
  {
    var next := s.nextIndex[peer];
    AppendArgs(s.currentTerm, next - 1, s.TermOf(next - 1), s.log[next - s.snapIndex - 1..], s.commitIndex)
  }

  // ---------------------------------------------------------------- snapshots

  /** The request `handleSendInstallSnapshot` builds. */
  function SnapshotFor(s: Server): SnapArgs {
    SnapArgs(s.currentTerm, s.me, s.snapIndex, s.snapTerm)
  }

  /** Whether `InstallSnapshot` replaces the log. */
  predicate Installs(s: Server, a: SnapArgs) {
    a.term >= s.currentTerm && a.lastIndex > s.snapIndex
  }

  function OnInstall(s: Server, a: SnapArgs): (Server, SnapReply) {
    if a.term < s.currentTerm then
      (s, SnapReply(s.currentTerm))
    else
      var s1 := if a.term > s.currentTerm
                then s.(currentTerm := a.term, votedFor := NOBODY).Persist()
                else s;
      var s2 := s1.(role := Follower);
      if a.lastIndex <= s2.snapIndex then
        (s2, SnapReply(s.currentTerm))
      else
        var s3 := s2.(snapIndex := a.lastIndex, snapTerm := a.lastTerm,
                      lastApplied := Max(s2.lastApplied, a.lastIndex),
                      commitIndex := Max(s2.commitIndex, a.lastIndex),
                      log := []);
        (s3.Persist(), SnapReply(s3.currentTerm))
  }

  /** The second lock region of `handleSendInstallSnapshot`, for a call that returned a reply. */
  function OnInstallReply(s: Server, peer: nat, a: SnapArgs, r: SnapReply): Server
    requires peer < |s.nextIndex| && peer < |s.matchIndex|
  {
    if s.currentTerm != a.term || s.role != Leader then s
    else if r.term > s.currentTerm then StepDown(s, r.term)
    else if r.term < s.currentTerm then s
    else
      AdvanceCommit(s.(matchIndex := s.matchIndex[peer := Max(s.matchIndex[peer], a.lastIndex)],
                       nextIndex := s.nextIndex[peer := Max(s.nextIndex[peer], a.lastIndex + 1)])).Persist()
  }

  /** `Snapshot` does not index outside the log. */
  predicate SnapshotInRange(s: Server, index: nat) {
    s.snapIndex < index <= s.lastApplied ==> index <= s.LastIndex()
  }

  /** `Snapshot`. An index that was applied but is beyond the log makes the source's slice expression panic. */
  function OnSnapshot(s: Server, index: nat): Server
    requires SnapshotInRange(s, index)
  {
    if index > s.lastApplied || index <= s.snapIndex then s
    else s.(snapIndex := index,
            snapTerm := s.log[index - s.snapIndex - 1].term,
            log := s.log[index - s.snapIndex..]).Persist()
  }

  // ---------------------------------------------------------------- applying and restarting

  /** Whether `BackgroundApplyRoutine` hands over an entry. */
  predicate WantsApply(s: Server) {
    s.lastApplied < s.commitIndex && s.LastIndex() != s.snapIndex
  }

  /** Whether the entry it then reads exists; otherwise the source panics. */
  predicate ApplyInRange(s: Server) {
    s.snapIndex <= s.lastApplied < s.LastIndex()
  }

  /** The next entry handed to the service. */
  function NextApplied(s: Server): Command
    requires ApplyInRange(s)
  {
    s.log[s.lastApplied - s.snapIndex].command
  }

  function OnApply(s: Server): Server {
    s.(lastApplied := s.lastApplied + 1)
  }

  /** A crash followed by `Make` with the same persister. */
  function OnRestart(s: Server): Server {
    Server(s.me, s.peers, s.disk.currentTerm, s.disk.votedFor, s.disk.log,
           s.disk.snapIndex, s.disk.snapIndex, s.disk.snapIndex, s.disk.snapTerm,
           Follower, seq(s.peers, _ => 0), seq(s.peers, _ => 0), 0, s.disk)
  }

  /** `Make` with an empty persister; its first save is what it starts with. */
  function Fresh(me: nat, peers: nat): Server {
    Server(me, peers, 0, NOBODY, [], 0, 0, 0, 0, Follower,
           seq(peers, _ => 0), seq(peers, _ => 0), 0, Durable(NOBODY, 0, [], 0, 0))
  }
}
