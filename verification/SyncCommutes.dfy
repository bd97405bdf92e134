/** Source synchronisation and execution do not disturb each other: the batch a sync service builds, and the two
    orders of a commit and a command. */
module SyncCommutes {
  import opened Common
  import opened WorkStateMachine
  import opened Execution
  import opened WorkItemRepository
  import V = Verification

  // -------------------------------------------------- building the batch

  /** An open Issue as fetched; the checks on its timestamp and URL and what is read from its body are given. */
  datatype ExternalIssue = ExternalIssue(
    externalId: string, title: string, state: string, labels: seq<string>, assignees: seq<string>,
    updatedAt: string, updatedAtOk: bool, url: string, urlOk: bool, criteria: seq<string>,
    definitionReady: Option<bool>)

  const PROVIDER := "github"

  function ItemId(repository: string, externalId: string): string { "github:" + (repository + (":" + externalId)) }

  predicate Acceptable(x: ExternalIssue) {
    x.externalId != "" && x.title != "" && x.state == "open" && x.updatedAtOk && x.urlOk
  }

  /** A known Issue keeps its id and execution fields as listed; a new one starts with the initial ones. */
  function BuildItem(name: string, x: ExternalIssue, prior: Option<WorkItem>, at: int): WorkItem {
    WorkItem(if prior.Some? then prior.value.id else ItemId(name, x.externalId),
             Source(PROVIDER, name, x.externalId),
             Details(x.title, x.state, x.labels, x.assignees, x.url, x.criteria, x.definitionReady, x.updatedAt, at),
             if prior.Some? then prior.value.exec else INITIAL)
  }

  /** An item has what its Issue says, and the id and execution fields of the known item, if there is one. */
  predicate BuiltFrom(name: string, x: ExternalIssue, prior: Option<WorkItem>, at: int, v: WorkItem) {
    && v.source.provider == "github" && v.source.repository == name && v.source.externalId == x.externalId
    && v.details.title == x.title && v.details.sourceState == x.state && v.details.labels == x.labels
    && v.details.assignees == x.assignees && v.details.sourceUrl == x.url
    && v.details.acceptanceCriteria == x.criteria && v.details.definitionReady == x.definitionReady
    && v.details.sourceUpdatedAt == x.updatedAt && v.details.lastSyncedAt == at
    && (prior.Some? ==> v.id == prior.value.id && v.exec == prior.value.exec)
    && (prior.None? ==> v.id == "github:" + (name + (":" + x.externalId)) && v.exec == INITIAL)
  }

  /** The service's loop over the fetched Issues: one unacceptable or repeated Issue rejects them all. */
  method BuildBatch(name: string, issues: seq<ExternalIssue>, listed: seq<WorkItem>, at: int)
    returns (r: Result<seq<WorkItem>>)
    ensures r.Ok? <==>
      && (forall i :: 0 <= i < |issues| ==>
            && issues[i].externalId != "" && issues[i].title != "" && issues[i].state == "open"
            && issues[i].updatedAtOk && issues[i].urlOk)
      && (forall i, k :: 0 <= i < k < |issues| ==> issues[i].externalId != issues[k].externalId)
    ensures r.Ok? ==>
      && |r.value| == |issues|
      && forall i :: 0 <= i < |issues| ==>
           && r.value[i] == BuildItem(name, issues[i], CurrentOf(listed, issues[i].externalId), at)
           && BuiltFrom(name, issues[i], CurrentOf(listed, issues[i].externalId), at, r.value[i])
  {
    var seen: set<string>, items: seq<WorkItem> := {}, [];
    for n := 0 to |issues|
      invariant |items| == n && seen == set i | 0 <= i < n :: issues[i].externalId
      invariant forall i :: 0 <= i < n ==>
        && Acceptable(issues[i])
        && items[i] == BuildItem(name, issues[i], CurrentOf(listed, issues[i].externalId), at)
      invariant forall i, k :: 0 <= i < k < n ==> issues[i].externalId != issues[k].externalId
    {
      var x := issues[n];
      if !Acceptable(x) || x.externalId in seen { return Err("invalid issue"); }
      seen := seen + {x.externalId};
      items := items + [BuildItem(name, x, CurrentOf(listed, x.externalId), at)];
    }
    r := Ok(items);
  }

  // ---------------------------------------------------------- invariants

  predicate NoColon(s: string) { forall i :: 0 <= i < |s| ==> s[i] != ':' }

  predicate ItemPlaced(item: WorkItem, name: string) {
    && item.source.provider == PROVIDER && item.source.repository == name
    && item.id == ItemId(name, item.source.externalId)
  }

  predicate ItemsPlaced(items: seq<WorkItem>, name: string) {
    && (forall i :: 0 <= i < |items| ==> ItemPlaced(items[i], name))
    && (forall i, k :: 0 <= i < k < |items| ==> items[i].source.externalId != items[k].source.externalId)
  }

  /** Every item sits in the repository it came from, once, under the id derived from its source. */
  predicate Placed(repos: seq<Repo>) {
    && (forall r :: 0 <= r < |repos| ==> NoColon(repos[r].name) && ItemsPlaced(repos[r].items, repos[r].name))
    && (forall r, k :: 0 <= r < k < |repos| ==> repos[r].name != repos[k].name)
  }

  /** What the service hands to `commitSync`. */
  predicate Disciplined(repos: seq<Repo>, name: string, batch: seq<WorkItem>) {
    && NoColon(name) && BatchValid(batch, name) && ItemsPlaced(batch, name)
    && (forall i :: 0 <= i < |batch| ==>
          CurrentOf(ItemsOf(repos, name), batch[i].source.externalId).None? ==> batch[i].exec == INITIAL)
  }

  lemma {:induction false} FirstColon(a: string, x: string, b: string, y: string)
    requires NoColon(a) && NoColon(b) && a + (":" + x) == b + (":" + y)
    ensures a == b && x == y
  {
    var s := a + (":" + x);
    assert s[0] == if |a| > 0 then a[0] else ':';
    assert s[0] == if |b| > 0 then b[0] else ':';
    if |a| > 0 {
      assert s[1..] == a[1..] + (":" + x) == b[1..] + (":" + y);
      FirstColon(a[1..], x, b[1..], y);
      assert a == [a[0]] + a[1..] && b == [b[0]] + b[1..];
    } else {
      assert s[1..] == x && s[1..] == y;
    }
  }

  /** Ids are unambiguous because repository names contain no colon. */
  lemma {:induction false} IdsInjective(r1: string, e1: string, r2: string, e2: string)
    requires NoColon(r1) && NoColon(r2) && ItemId(r1, e1) == ItemId(r2, e2)
    ensures r1 == r2 && e1 == e2
  {
    assert ItemId(r1, e1)[7..] == r1 + (":" + e1) && ItemId(r2, e2)[7..] == r2 + (":" + e2);
    FirstColon(r1, e1, r2, e2);
  }

  /** The stored item of an external id is the one that carries it. */
  lemma {:induction false} CurrentIs(items: seq<WorkItem>, name: string, i: nat)
    requires ItemsPlaced(items, name) && i < |items|
    ensures CurrentOf(items, items[i].source.externalId) == Some(items[i])
  {
    if i < |items| - 1 {
      assert items[i].source.externalId != items[|items|-1].source.externalId;
      CurrentIs(items[..|items|-1], name, i);
    }
  }

  lemma {:induction false} CurrentComesFrom(items: seq<WorkItem>, externalId: string)
    ensures var c := CurrentOf(items, externalId);
            if c.Some? then c.value in items && c.value.source.externalId == externalId
            else forall i :: 0 <= i < |items| ==> items[i].source.externalId != externalId
  {
    if |items| > 0 && items[|items|-1].source.externalId != externalId {
      CurrentComesFrom(items[..|items|-1], externalId);
    }
  }

  /** In a placed snapshot the search finds the only item with an id. */
  lemma {:induction false} FindIs(repos: seq<Repo>, r: nat, i: nat)
    requires Placed(repos) && r < |repos| && i < |repos[r].items|
    ensures RepoIndex(repos, repos[r].items[i].id) == r && ItemIndex(repos[r].items, repos[r].items[i].id) == i
  {
    var item := repos[r].items[i];
    var r', i' := RepoIndex(repos, item.id), ItemIndex(repos[r].items, item.id);
    assert i' <= i && Holds(repos[r], item.id) && r' <= r;
    var k := ItemIndex(repos[r'].items, item.id);
    var other := repos[r'].items[k];
    assert ItemPlaced(item, repos[r].name) && ItemPlaced(other, repos[r'].name);
    IdsInjective(repos[r].name, item.source.externalId, repos[r'].name, other.source.externalId);
    assert ItemPlaced(repos[r].items[i'], repos[r].name);
    IdsInjective(repos[r].name, item.source.externalId, repos[r].name, repos[r].items[i'].source.externalId);
  }

  // --------------------------------------------------- the batch is sound

  /** A batch built from the list of the same repository is disciplined, as long as no other sync of that
      repository has committed in between; the execution fields in the list may be stale. */
  lemma {:induction false} BuiltBatchIsDisciplined(
    repos: seq<Repo>, name: string, issues: seq<ExternalIssue>, listed: seq<WorkItem>, at: int, batch: seq<WorkItem>)
    requires Placed(repos) && NoColon(name) && ItemsPlaced(listed, name)
    requires forall i :: 0 <= i < |issues| ==> Acceptable(issues[i]) && issues[i].updatedAt != "" && issues[i].url != ""
    requires forall i, k :: 0 <= i < k < |issues| ==> issues[i].externalId != issues[k].externalId
    requires forall x :: CurrentOf(listed, x).Some? <==> CurrentOf(ItemsOf(repos, name), x).Some?
    requires |batch| == |issues| && forall i :: 0 <= i < |issues| ==>
      batch[i] == BuildItem(name, issues[i], CurrentOf(listed, issues[i].externalId), at)
    ensures Disciplined(repos, name, batch)
  {
    forall i | 0 <= i < |batch|
      ensures ItemPlaced(batch[i], name) && ItemValid(batch[i], name)
      ensures batch[i].source.externalId == issues[i].externalId
    {
      CurrentComesFrom(listed, issues[i].externalId);
      var prior := CurrentOf(listed, issues[i].externalId);
      if prior.Some? {
        var k :| 0 <= k < |listed| && listed[k] == prior.value;
        assert ItemPlaced(listed[k], name);
      }
      assert ItemId(name, issues[i].externalId)[0] == 'g';
    }
  }

  // -------------------------------------------------------- two commuting writes

  predicate Committable(repos: seq<Repo>, name: string, batch: seq<WorkItem>) {
    Placed(repos) && !Blank(name) && Disciplined(repos, name, batch)
  }

  function Synced(repos: seq<Repo>, name: string, batch: seq<WorkItem>, metadata: Metadata): seq<Repo> {
    SetRepo(repos, Repo(name, MergeAll(batch, ItemsOf(repos, name)), metadata))
  }

  lemma {:induction false} SyncKeepsPlaced(repos: seq<Repo>, name: string, batch: seq<WorkItem>, metadata: Metadata)
    requires Placed(repos) && Disciplined(repos, name, batch)
    ensures Placed(Synced(repos, name, batch, metadata))
  {
    var merged := MergeAll(batch, ItemsOf(repos, name));
    forall i | 0 <= i < |merged| ensures ItemPlaced(merged[i], name) && merged[i].source == batch[i].source {
      assert ItemPlaced(batch[i], name);
    }
    assert ItemsPlaced(merged, name);
    var r := NameIndex(repos, name);
    var repos' := Synced(repos, name, batch, metadata);
    forall a, b | 0 <= a < b < |repos'| ensures repos'[a].name != repos'[b].name {
      if r == |repos| && b == r { assert repos[a].name != name; }
    }
  }

  lemma {:induction false} SetKeepsPlaced(repos: seq<Repo>, id: string, exec: Exec)
    requires Placed(repos)
    ensures Placed(SetExec(repos, id, exec))
  {
    var r := RepoIndex(repos, id);
    if r < |repos| {
      var items := repos[r].items;
      var i := ItemIndex(items, id);
      var items' := items[i := items[i].(exec := exec)];
      forall k | 0 <= k < |items'| ensures ItemPlaced(items'[k], repos[r].name) && items'[k].source == items[k].source {
        assert ItemPlaced(items[k], repos[r].name);
      }
      assert ItemsPlaced(items', repos[r].name);
    }
  }

  /** Whether a sync keeps an item: it belongs to another repository, or the batch contains it. */
  predicate Kept(name: string, batch: seq<WorkItem>, item: WorkItem) {
    item.source.repository != name || exists k :: 0 <= k < |batch| && batch[k].id == item.id
  }

  /** Where a kept item is after the sync; its id, source and execution fields are the same. */
  lemma {:induction false} KeptAt(
    repos: seq<Repo>, name: string, batch: seq<WorkItem>, metadata: Metadata, r: nat, i: nat) returns (r': nat, i': nat)
    requires Committable(repos, name, batch) && r < |repos| && i < |repos[r].items|
    requires Kept(name, batch, repos[r].items[i])
    ensures var repos' := Synced(repos, name, batch, metadata);
      && r' == r < |repos'| && i' < |repos'[r'].items| && ViewOf(repos'[r'].items[i']) == ViewOf(repos[r].items[i])
      && repos'[r'].name == repos[r].name
      && (repos[r].name == name ==> i' < |batch| && batch[i'].source.externalId == repos[r].items[i].source.externalId)
      && (repos[r].name != name ==> i' == i)
  {
    var item := repos[r].items[i];
    assert ItemPlaced(item, repos[r].name);
    var n := NameIndex(repos, name);
    r', i' := r, i;
    if repos[r].name == name {
      assert n == r;
      var k :| 0 <= k < |batch| && batch[k].id == item.id;
      assert ItemPlaced(batch[k], name);
      IdsInjective(name, batch[k].source.externalId, name, item.source.externalId);
      CurrentIs(repos[r].items, name, i);
      i' := k;
    }
  }

  /** A kept item reads the same after the sync. */
  lemma {:induction false} ViewKept(
    repos: seq<Repo>, name: string, batch: seq<WorkItem>, metadata: Metadata, id: string)
    requires Committable(repos, name, batch) && Find(repos, id).Some? && Kept(name, batch, Find(repos, id).value)
    ensures FindView(Synced(repos, name, batch, metadata), id) == FindView(repos, id)
  {
    var r := RepoIndex(repos, id);
    var i := ItemIndex(repos[r].items, id);
    var r', i' := KeptAt(repos, name, batch, metadata, r, i);
    SyncKeepsPlaced(repos, name, batch, metadata);
    FindIs(Synced(repos, name, batch, metadata), r', i');
  }

  lemma {:induction false} CurrentAfterSet(items: seq<WorkItem>, name: string, i: nat, exec: Exec, externalId: string)
    requires ItemsPlaced(items, name) && i < |items|
    ensures CurrentOf(items[i := items[i].(exec := exec)], externalId) ==
            if externalId == items[i].source.externalId then Some(items[i].(exec := exec))
            else CurrentOf(items, externalId)
  {
    var last := |items| - 1;
    var items' := items[i := items[i].(exec := exec)];
    if i < last {
      assert items'[..last] == items[..last][i := items[i].(exec := exec)];
      assert items[i].source.externalId != items[last].source.externalId;
      CurrentAfterSet(items[..last], name, i, exec, externalId);
    } else {
      assert items'[..last] == items[..last];
      CurrentComesFrom(items[..last], externalId);
      if externalId == items[i].source.externalId {
        assert forall k :: 0 <= k < last ==> items[k].source.externalId != externalId;
      }
    }
  }

  lemma {:induction false} MergeAfterSet(
    batch: seq<WorkItem>, items: seq<WorkItem>, name: string, i: nat, k: nat, exec: Exec)
    requires ItemsPlaced(items, name) && ItemsPlaced(batch, name) && i < |items| && k < |batch|
    requires batch[k].source.externalId == items[i].source.externalId
    ensures MergeAll(batch, items[i := items[i].(exec := exec)])
            == MergeAll(batch, items)[k := MergeAll(batch, items)[k].(exec := exec)]
  {
    var before, after := MergeAll(batch, items), MergeAll(batch, items[i := items[i].(exec := exec)]);
    CurrentIs(items, name, i);
    forall n | 0 <= n < |batch| ensures after[n] == before[k := before[k].(exec := exec)][n] {
      CurrentAfterSet(items, name, i, exec, batch[n].source.externalId);
      assert n != k ==> batch[n].source.externalId != batch[k].source.externalId;
    }
  }

  lemma {:induction false} NameIs(repos: seq<Repo>, name: string, n: nat)
    requires n <= |repos| && (n < |repos| ==> repos[n].name == name)
    requires forall k :: 0 <= k < n ==> repos[k].name != name
    ensures NameIndex(repos, name) == n
  {
  }

  lemma {:induction false} NameUnmoved(repos: seq<Repo>, r: nat, repo: Repo, name: string)
    requires r < |repos| && repo.name == repos[r].name
    ensures NameIndex(repos[r := repo], name) == NameIndex(repos, name)
  {
    NameIs(repos[r := repo], name, NameIndex(repos, name));
  }

  /** The repository an item is in, with the item's execution fields rewritten. */
  function Rewritten(repo: Repo, i: nat, exec: Exec): Repo
    requires i < |repo.items|
  {
    repo.(items := repo.items[i := repo.items[i].(exec := exec)])
  }

  lemma {:induction false} SetIs(repos: seq<Repo>, r: nat, i: nat, exec: Exec)
    requires Placed(repos) && r < |repos| && i < |repos[r].items|
    ensures SetExec(repos, repos[r].items[i].id, exec) == repos[r := Rewritten(repos[r], i, exec)]
  {
    FindIs(repos, r, i);
  }

  lemma {:induction false} SetCommutesHere(
    repos: seq<Repo>, batch: seq<WorkItem>, metadata: Metadata, r: nat, i: nat, k: nat, exec: Exec)
    requires Placed(repos) && r < |repos| && i < |repos[r].items| && ItemsPlaced(batch, repos[r].name)
    requires k < |batch| && batch[k].source.externalId == repos[r].items[i].source.externalId
    ensures
      var name := repos[r].name;
      var synced := Synced(repos, name, batch, metadata);
      && |synced| == |repos| && |synced[r].items| == |batch|
      && Synced(repos[r := Rewritten(repos[r], i, exec)], name, batch, metadata) ==
         synced[r := Rewritten(synced[r], k, exec)]
  {
    var name := repos[r].name;
    NameIs(repos, name, r);
    NameIs(repos[r := Rewritten(repos[r], i, exec)], name, r);
    MergeAfterSet(batch, repos[r].items, name, i, k, exec);
  }

  lemma {:induction false} SetCommutesElsewhere(
    repos: seq<Repo>, name: string, batch: seq<WorkItem>, metadata: Metadata, r: nat, i: nat, exec: Exec)
    requires r < |repos| && i < |repos[r].items| && repos[r].name != name
    ensures
      var synced := Synced(repos, name, batch, metadata);
      && r < |synced| && synced[r] == repos[r]
      && Synced(repos[r := Rewritten(repos[r], i, exec)], name, batch, metadata) ==
         synced[r := Rewritten(synced[r], i, exec)]
  {
    NameUnmoved(repos, r, Rewritten(repos[r], i, exec), name);
  }

  /** Writing a kept item's execution fields before or after the sync gives the same repositories. */
  lemma {:induction false} SetCommutes(
    repos: seq<Repo>, name: string, batch: seq<WorkItem>, metadata: Metadata, id: string, exec: Exec)
    requires Committable(repos, name, batch) && Find(repos, id).Some? && Kept(name, batch, Find(repos, id).value)
    ensures Synced(SetExec(repos, id, exec), name, batch, metadata) ==
            SetExec(Synced(repos, name, batch, metadata), id, exec)
  {
    var r := RepoIndex(repos, id);
    var i := ItemIndex(repos[r].items, id);
    var r', i' := KeptAt(repos, name, batch, metadata, r, i);
    SyncKeepsPlaced(repos, name, batch, metadata);
    SetIs(repos, r, i, exec);
    SetIs(Synced(repos, name, batch, metadata), r', i', exec);
    if repos[r].name == name {
      SetCommutesHere(repos, batch, metadata, r, i, i', exec);
    } else {
      SetCommutesElsewhere(repos, name, batch, metadata, r, i, exec);
    }
  }

  lemma {:induction false} SetKeepsDiscipline(
    repos: seq<Repo>, name: string, batch: seq<WorkItem>, id: string, exec: Exec)
    requires Committable(repos, name, batch)
    ensures Committable(SetExec(repos, id, exec), name, batch)
  {
    SetKeepsPlaced(repos, id, exec);
    var r := RepoIndex(repos, id);
    if r < |repos| {
      var items := repos[r].items;
      var i := ItemIndex(items, id);
      NameUnmoved(repos, r, repos[r].(items := items[i := items[i].(exec := exec)]), name);
      if repos[r].name == name {
        assert NameIndex(repos, name) == r;
        var after := ItemsOf(SetExec(repos, id, exec), name);
        forall k | 0 <= k < |batch| && CurrentOf(after, batch[k].source.externalId).None?
          ensures batch[k].exec == INITIAL
        {
          CurrentAfterSet(items, name, i, exec, batch[k].source.externalId);
        }
      }
    }
  }

  // ---------------------------------------------------------- main theorem

  /** No execution update is lost to source polling, and none sees it: for every command whose item the sync
      keeps, committing the sync first and performing the command first succeed together, give the same answer
      and end in the same snapshot. */
  lemma {:induction false} SyncCommutesWithCommands(
    s: Snapshot, name: string, batch: seq<WorkItem>, metadata: Metadata, cmd: Command)
    requires Committable(s.repos, name, batch)
    requires ItemOf(cmd, s.logs).Ok? ==>
      Find(s.repos, ItemOf(cmd, s.logs).value).Some?
      && Kept(name, batch, Find(s.repos, ItemOf(cmd, s.logs).value).value)
    ensures CommitSync(s, name, batch, metadata).Ok?
    ensures
      var synced := CommitSync(s, name, batch, metadata).value;
      var first, second := Perform(s, cmd), Perform(synced, cmd);
      && (first.Ok? <==> second.Ok?)
      && (first.Ok? ==>
            && first.value.reply == second.value.reply
            && CommitSync(first.value.next, name, batch, metadata) == Ok(second.value.next))
  {
    var synced := CommitSync(s, name, batch, metadata).value;
    assert synced.repos == Synced(s.repos, name, batch, metadata);
    var id := ItemOf(cmd, s.logs);
    if id.Ok? {
      ViewKept(s.repos, name, batch, metadata, id.value);
      var effect := Act(cmd, FindView(s.repos, id.value), s.logs);
      if effect.Ok? && effect.value.exec.Some? {
        SetCommutes(s.repos, name, batch, metadata, id.value, effect.value.exec.value);
        SetKeepsDiscipline(s.repos, name, batch, id.value, effect.value.exec.value);
      }
    }
  }

  /** An item that is still found after a sync was kept by it. */
  lemma {:induction false} FoundWasKept(
    repos: seq<Repo>, name: string, batch: seq<WorkItem>, metadata: Metadata, id: string)
    requires Committable(repos, name, batch) && Find(repos, id).Some?
    requires Find(Synced(repos, name, batch, metadata), id).Some?
    ensures Kept(name, batch, Find(repos, id).value)
  {
    var r := RepoIndex(repos, id);
    var item := repos[r].items[ItemIndex(repos[r].items, id)];
    assert ItemPlaced(item, repos[r].name);
    if repos[r].name == name {
      var synced := Synced(repos, name, batch, metadata);
      SyncKeepsPlaced(repos, name, batch, metadata);
      NameIs(repos, name, r);
      var r' := RepoIndex(synced, id);
      var i' := ItemIndex(synced[r'].items, id);
      assert ItemPlaced(synced[r'].items[i'], synced[r'].name);
      IdsInjective(name, item.source.externalId, synced[r'].name, synced[r'].items[i'].source.externalId);
      assert r' == r && synced[r].items == MergeAll(batch, repos[r].items);
      assert batch[i'].id == item.id;
    }
  }

  /** The hypothesis is needed: an item that the batch of its repository drops cannot complete its run any more. */
  lemma {:induction false} DroppedItemsLoseTheirRun(
    s: Snapshot, name: string, batch: seq<WorkItem>, metadata: Metadata, executionId: string, result: RunResult,
    event: Event)
    requires Committable(s.repos, name, batch)
    requires var cmd := CompleteRun(executionId, result, event);
      && ItemOf(cmd, s.logs).Ok? && Find(s.repos, ItemOf(cmd, s.logs).value).Some?
      && !Kept(name, batch, Find(s.repos, ItemOf(cmd, s.logs).value).value)
    ensures Perform(CommitSync(s, name, batch, metadata).value, CompleteRun(executionId, result, event)).Err?
  {
    var id := ItemOf(CompleteRun(executionId, result, event), s.logs).value;
    if Find(Synced(s.repos, name, batch, metadata), id).Some? {
      FoundWasKept(s.repos, name, batch, metadata, id);
    }
  }

  /** Likewise a verification of a dropped item can only be given up: completing it succeeds exactly when the worker's
      answer, held against the pilot's candidate head, leads to ERROR. */
  lemma {:induction false} DroppedItemsLoseTheirVerdict(
    s: Snapshot, name: string, batch: seq<WorkItem>, metadata: Metadata, id: string, r: V.VResult)
    requires Committable(s.repos, name, batch)
    requires var cmd := CompleteVerification(id, r);
      && ItemOf(cmd, s.logs).Ok? && Find(s.repos, ItemOf(cmd, s.logs).value).Some?
      && !Kept(name, batch, Find(s.repos, ItemOf(cmd, s.logs).value).value)
    ensures
      var record := s.logs.vrecords[V.IndexOfVRecord(s.logs.vrecords, id)];
      var effective := Effective(PilotHead(s.logs.records, record.sourceExecutionId), r);
      Perform(CommitSync(s, name, batch, metadata).value, CompleteVerification(id, r)).Ok? <==>
        V.Decide(record.criteria, effective).status.Error?
  {
    var item := ItemOf(CompleteVerification(id, r), s.logs).value;
    if Find(Synced(s.repos, name, batch, metadata), item).Some? {
      FoundWasKept(s.repos, name, batch, metadata, item);
    }
  }
}
