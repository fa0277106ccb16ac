/**
 * The project store behind the dashboard and the editor: a table of users,
 * each on the free or the pro plan with a `projectsUsed` counter, and a table
 * of projects, each owned by one user.  The signed-in user and the clock are
 * explicit inputs of every handler.
 */
module Projects {
  import opened Wrappers
  import Plans

  /** Document ids of the two tables. */
  type UserId = nat
  type ProjectId = nat

  datatype Plan = Free | Pro

  /** The serialised canvas, stored and returned as it is. */
  datatype CanvasState = CanvasState(json: string)

  /** A row of the users table. */
  datatype User = User(
    name: string,
    email: string,
    tokenIdentifier: string,
    imageUrl: Option<string>,
    plan: Plan,
    projectsUsed: int,
    exportsThisMonth: int,
    createdAt: int,
    lastActiveAt: int)

  /** A row of the projects table. */
  datatype Project = Project(
    title: string,
    userId: UserId,
    canvasState: Option<CanvasState>,
    width: int,
    height: int,
    originalImageUrl: Option<string>,
    currentImageUrl: Option<string>,
    thumbnailUrl: Option<string>,
    activeTransformations: Option<string>,
    backgroundRemoved: Option<bool>,
    folderId: Option<nat>,
    createdAt: int,
    updatedAt: int)

  /** The arguments of `create`. */
  datatype NewProject = NewProject(
    title: string,
    originalImageUrl: Option<string>,
    currentImageUrl: Option<string>,
    thumbnailUrl: Option<string>,
    width: int,
    height: int,
    canvasState: Option<CanvasState>)

  /** The arguments of `updateProject` besides the id; `None` is an omitted field. */
  datatype ProjectPatch = ProjectPatch(
    canvasState: Option<CanvasState>,
    width: Option<int>,
    height: Option<int>,
    currentImageUrl: Option<string>,
    thumbnailUrl: Option<string>,
    activeTransformations: Option<string>,
    backgroundRemoved: Option<bool>)

  /**
   * The errors the handlers throw: a handler run with no signed-in user,
   * "Free plan limited to 3 projects. ...", "Project not found" and
   * "Access denied".
   */
  datatype Error = NoCurrentUser | PlanLimitReached | NotFound | AccessDenied

  /** The ids of the stored projects whose owner is `u`. */
  function Owned(projects: map<ProjectId, Project>, u: UserId): (ids: set<ProjectId>)
    ensures forall id :: id in ids <==> id in projects && projects[id].userId == u
  {
    set id | id in projects.Keys && projects[id].userId == u
  }

  /** Adding a record for `u` under a fresh id adds exactly that id to what `u` owns. */
  lemma OwnedAfterInsert(projects: map<ProjectId, Project>, id: ProjectId, p: Project)
    requires id !in projects
    ensures Owned(projects[id := p], p.userId) == Owned(projects, p.userId) + {id}
    ensures |Owned(projects[id := p], p.userId)| == |Owned(projects, p.userId)| + 1
  {
  }

  /** The server's project limit: free users may not own more than three. */
  predicate ExceedsProjectLimit(plan: Plan, ownedCount: int)
    ensures plan == Pro ==> !ExceedsProjectLimit(plan, ownedCount)
    ensures plan == Free ==> (ExceedsProjectLimit(plan, ownedCount) <==> ownedCount >= 3)
  {
    plan == Free && ownedCount >= Plans.FreeProjectLimit
  }

  /** The record `create` inserts. */
  function NewRecord(args: NewProject, owner: UserId, now: int): (p: Project)
    ensures p.userId == owner && p.createdAt == now && p.updatedAt == now
    ensures p.title == args.title && p.width == args.width && p.height == args.height
    ensures p.originalImageUrl == args.originalImageUrl && p.currentImageUrl == args.currentImageUrl
    ensures p.thumbnailUrl == args.thumbnailUrl && p.canvasState == args.canvasState
    ensures p.activeTransformations == None && p.backgroundRemoved == None && p.folderId == None
  {
    Project(args.title, owner, args.canvasState, args.width, args.height,
            args.originalImageUrl, args.currentImageUrl, args.thumbnailUrl,
            None, None, None, now, now)
  }

  /** `Math.max(0, count - 1)`: one less, but never below zero. */
  function Decremented(count: int): (r: int)
    ensures r >= 0
    ensures count >= 1 ==> r == count - 1
    ensures count < 1 ==> r == 0
  {
    if count - 1 > 0 then count - 1 else 0
  }

  /** A supplied value replaces the stored one; an omitted one keeps it. */
  function Override<T>(supplied: Option<T>, current: Option<T>): (r: Option<T>)
    ensures supplied.Some? ==> r == supplied
    ensures supplied.None? ==> r == current
  {
    if supplied.Some? then supplied else current
  }

  /** The record after a partial update at time `now`. */
  function ApplyPatch(p: Project, patch: ProjectPatch, now: int): (q: Project)
    ensures q.updatedAt == now
    ensures q.title == p.title && q.userId == p.userId && q.originalImageUrl == p.originalImageUrl
    ensures q.createdAt == p.createdAt && q.folderId == p.folderId
    ensures patch.canvasState.None? ==> q.canvasState == p.canvasState
    ensures patch.width.None? ==> q.width == p.width
    ensures patch.height.None? ==> q.height == p.height
    ensures patch.currentImageUrl.None? ==> q.currentImageUrl == p.currentImageUrl
    ensures patch.thumbnailUrl.None? ==> q.thumbnailUrl == p.thumbnailUrl
    ensures patch.activeTransformations.None? ==> q.activeTransformations == p.activeTransformations
    ensures patch.backgroundRemoved.None? ==> q.backgroundRemoved == p.backgroundRemoved
    ensures patch.canvasState.Some? ==> q.canvasState == patch.canvasState
    ensures patch.width.Some? ==> q.width == patch.width.value
    ensures patch.height.Some? ==> q.height == patch.height.value
    ensures patch.currentImageUrl.Some? ==> q.currentImageUrl == patch.currentImageUrl
    ensures patch.thumbnailUrl.Some? ==> q.thumbnailUrl == patch.thumbnailUrl
    ensures patch.activeTransformations.Some? ==> q.activeTransformations == patch.activeTransformations
    ensures patch.backgroundRemoved.Some? ==> q.backgroundRemoved == patch.backgroundRemoved
  {
    p.(canvasState := Override(patch.canvasState, p.canvasState),
       width := if patch.width.Some? then patch.width.value else p.width,
       height := if patch.height.Some? then patch.height.value else p.height,
       currentImageUrl := Override(patch.currentImageUrl, p.currentImageUrl),
       thumbnailUrl := Override(patch.thumbnailUrl, p.thumbnailUrl),
       activeTransformations := Override(patch.activeTransformations, p.activeTransformations),
       backgroundRemoved := Override(patch.backgroundRemoved, p.backgroundRemoved),
       updatedAt := now)
  }

  /** Applying a patch again changes nothing but the update time. */
  lemma ApplyPatchIdempotent(p: Project, patch: ProjectPatch, t1: int, t2: int)
    ensures ApplyPatch(ApplyPatch(p, patch, t1), patch, t2) == ApplyPatch(p, patch, t2)
    ensures ApplyPatch(ApplyPatch(p, patch, t1), patch, t2) == ApplyPatch(p, patch, t1).(updatedAt := t2)
  {
  }

  /** The ordering of the by-user-and-update index, read backwards: newer update first, then newer record. */
  predicate Before(a: (ProjectId, Project), b: (ProjectId, Project))
  {
    a.1.updatedAt > b.1.updatedAt || (a.1.updatedAt == b.1.updatedAt && a.0 > b.0)
  }

  predicate NewestFirst(s: seq<(ProjectId, Project)>)
  {
    forall i, j :: 0 <= i < j < |s| ==> Before(s[i], s[j])
  }

  /** Places an entry with a new id into a newest-first list. */
  function InsertNewestFirst(s: seq<(ProjectId, Project)>, x: (ProjectId, Project)): (r: seq<(ProjectId, Project)>)
    requires NewestFirst(s)
    requires forall e :: e in s ==> e.0 != x.0
    ensures NewestFirst(r)
    ensures |r| == |s| + 1
    ensures forall e :: e in r <==> e in s || e == x
  {
    if s == [] || Before(x, s[0]) then
      assert forall j :: 0 <= j < |s| ==> Before(s[0], s[j]) || j == 0;
      [x] + s
    else
      var rest := InsertNewestFirst(s[1..], x);
      assert forall e :: e in rest ==> Before(s[0], e) by {
        forall e | e in rest ensures Before(s[0], e) {
          if e != x {
            var j :| 0 <= j < |s[1..]| && s[1..][j] == e;
            assert s[j + 1] == e;
          }
        }
      }
      [s[0]] + rest
  }

  /** The caller, when there is one, is a stored user. */
  predicate KnownCaller(users: map<UserId, User>, caller: Option<UserId>)
  {
    caller.Some? ==> caller.value in users
  }

  /** The check shared by the per-project handlers: existence first, then ownership. */
  function CheckAccess(projects: map<ProjectId, Project>, caller: Option<UserId>, id: ProjectId): (e: Option<Error>)
    ensures id !in projects ==> e == Some(NotFound)
    ensures id in projects && caller != Some(projects[id].userId) ==> e == Some(AccessDenied)
    ensures id in projects && caller == Some(projects[id].userId) ==> e == None
  {
    if id !in projects then Some(NotFound)
    else if caller.None? || projects[id].userId != caller.value then Some(AccessDenied)
    else None
  }

  /** The client-side limit and the server-side limit agree on every count. */
  lemma ClientLimitAgreesWithServer(projects: map<ProjectId, Project>, u: UserId, plan: Plan)
    ensures Plans.CanCreateProject(plan == Pro, |Owned(projects, u)|)
            <==> !ExceedsProjectLimit(plan, |Owned(projects, u)|)
  {
  }

  class Store {
    var users: map<UserId, User>
    var projects: map<ProjectId, Project>
    /** The next id handed out; every stored id is below it. */
    var nextId: ProjectId

    ghost predicate Valid()
      reads this
    {
      && (forall id :: id in projects ==> id < nextId)
      && (forall id :: id in projects ==> projects[id].userId in users)
    }

    constructor (initialUsers: map<UserId, User>)
      ensures Valid()
      ensures users == initialUsers && projects == map[] && nextId == 0
    {
      users := initialUsers;
      projects := map[];
      nextId := 0;
    }

    /**
     * `create`: free users owning three or more stored projects are refused;
     * otherwise one record is inserted and the owner's counter goes up by one.
     */
    method Create(caller: Option<UserId>, now: int, args: NewProject) returns (r: Result<ProjectId, Error>)
      requires Valid() && KnownCaller(users, caller)
      modifies this
      ensures Valid()
      ensures caller.None? ==> r == Failure(NoCurrentUser)
      ensures caller.Some? ==>
        (r == Failure(PlanLimitReached) <==>
         ExceedsProjectLimit(old(users)[caller.value].plan, |Owned(old(projects), caller.value)|))
      ensures caller.Some? && old(users)[caller.value].plan == Pro ==> r.Success?
      ensures caller.Some? ==>
        (r.Success? <==> !ExceedsProjectLimit(old(users)[caller.value].plan, |Owned(old(projects), caller.value)|))
      ensures r.Failure? ==> users == old(users) && projects == old(projects) && nextId == old(nextId)
      ensures r.Success? ==>
        && caller.Some?
        && r.value !in old(projects)
        && projects == old(projects)[r.value := NewRecord(args, caller.value, now)]
        && users == old(users)[caller.value :=
             old(users)[caller.value].(projectsUsed := old(users)[caller.value].projectsUsed + 1,
                                       lastActiveAt := now)]
        && |Owned(projects, caller.value)| == |Owned(old(projects), caller.value)| + 1
      ensures r.Success? && users[caller.value].plan == Free ==>
        |Owned(projects, caller.value)| <= Plans.FreeProjectLimit
    {
      if caller.None? {
        return Failure(NoCurrentUser);
      }
      var uid := caller.value;
      var user := users[uid];
      if user.plan == Free {
        var projectCount := |Owned(projects, uid)|;
        if projectCount >= 3 {
          return Failure(PlanLimitReached);
        }
      }
      var id := nextId;
      var record := NewRecord(args, uid, now);
      OwnedAfterInsert(projects, id, record);
      projects := projects[id := record];
      nextId := nextId + 1;
      users := users[uid := user.(projectsUsed := user.projectsUsed + 1, lastActiveAt := now)];
      r := Success(id);
    }

    /**
     * `deleteProject`: not found, then access denied; on success the record
     * goes and the owner's counter drops by one, never below zero.
     */
    method DeleteProject(caller: Option<UserId>, now: int, id: ProjectId) returns (r: Result<(), Error>)
      requires Valid() && KnownCaller(users, caller)
      modifies this
      ensures Valid()
      ensures id !in old(projects) ==> r == Failure(NotFound)
      ensures id in old(projects) && caller != Some(old(projects)[id].userId) ==> r == Failure(AccessDenied)
      ensures id in old(projects) && caller == Some(old(projects)[id].userId) ==> r == Success(())
      ensures r.Failure? ==> users == old(users) && projects == old(projects) && nextId == old(nextId)
      ensures r.Success? ==>
        && caller.Some?
        && projects == old(projects) - {id}
        && nextId == old(nextId)
        && users == old(users)[caller.value :=
             old(users)[caller.value].(projectsUsed := Decremented(old(users)[caller.value].projectsUsed),
                                       lastActiveAt := now)]
        && users[caller.value].projectsUsed >= 0
    {
      var denied := CheckAccess(projects, caller, id);
      if denied.Some? {
        return Failure(denied.value);
      }
      var uid := caller.value;
      var user := users[uid];
      projects := projects - {id};
      users := users[uid := user.(projectsUsed := Decremented(user.projectsUsed), lastActiveAt := now)];
      r := Success(());
    }

    /** `getProject`: the record, for its owner only; not found is reported first. */
    method GetProject(caller: Option<UserId>, id: ProjectId) returns (r: Result<Project, Error>)
      ensures id !in projects ==> r == Failure(NotFound)
      ensures id in projects && caller != Some(projects[id].userId) ==> r == Failure(AccessDenied)
      ensures id in projects && caller == Some(projects[id].userId) ==> r == Success(projects[id])
    {
      var denied := CheckAccess(projects, caller, id);
      if denied.Some? {
        return Failure(denied.value);
      }
      r := Success(projects[id]);
    }

    /**
     * `updateProject`: the same checks as `getProject`; on success only the
     * supplied fields and the update time change, and the caller's last
     * activity is stamped.
     */
    method UpdateProject(caller: Option<UserId>, now: int, id: ProjectId, patch: ProjectPatch)
      returns (r: Result<ProjectId, Error>)
      requires Valid() && KnownCaller(users, caller)
      modifies this
      ensures Valid()
      ensures id !in old(projects) ==> r == Failure(NotFound)
      ensures id in old(projects) && caller != Some(old(projects)[id].userId) ==> r == Failure(AccessDenied)
      ensures id in old(projects) && caller == Some(old(projects)[id].userId) ==> r == Success(id)
      ensures r.Failure? ==> users == old(users) && projects == old(projects) && nextId == old(nextId)
      ensures r.Success? ==>
        && caller.Some?
        && projects == old(projects)[id := ApplyPatch(old(projects)[id], patch, now)]
        && nextId == old(nextId)
        && users == old(users)[caller.value := old(users)[caller.value].(lastActiveAt := now)]
    {
      var denied := CheckAccess(projects, caller, id);
      if denied.Some? {
        return Failure(denied.value);
      }
      var updated := projects[id].(updatedAt := now);
      if patch.canvasState.Some? {
        updated := updated.(canvasState := patch.canvasState);
      }
      if patch.width.Some? {
        updated := updated.(width := patch.width.value);
      }
      if patch.height.Some? {
        updated := updated.(height := patch.height.value);
      }
      if patch.currentImageUrl.Some? {
        updated := updated.(currentImageUrl := patch.currentImageUrl);
      }
      if patch.thumbnailUrl.Some? {
        updated := updated.(thumbnailUrl := patch.thumbnailUrl);
      }
      if patch.activeTransformations.Some? {
        updated := updated.(activeTransformations := patch.activeTransformations);
      }
      if patch.backgroundRemoved.Some? {
        updated := updated.(backgroundRemoved := patch.backgroundRemoved);
      }
      assert updated == ApplyPatch(projects[id], patch, now) by {
        var p, q := projects[id], ApplyPatch(projects[id], patch, now);
        assert updated.canvasState == q.canvasState && updated.width == q.width && updated.height == q.height;
        assert updated.currentImageUrl == q.currentImageUrl && updated.thumbnailUrl == q.thumbnailUrl;
        assert updated.activeTransformations == q.activeTransformations;
        assert updated.backgroundRemoved == q.backgroundRemoved;
      }
      projects := projects[id := updated];
      var uid := caller.value;
      users := users[uid := users[uid].(lastActiveAt := now)];
      r := Success(id);
    }

    /**
     * `getUserProjects`: exactly the caller's projects, each with its id,
     * most recently updated first.
     */
    method GetUserProjects(caller: Option<UserId>) returns (r: Result<seq<(ProjectId, Project)>, Error>)
      ensures caller.None? ==> r == Failure(NoCurrentUser)
      ensures caller.Some? ==> r.Success?
      ensures r.Success? ==> caller.Some? && NewestFirst(r.value)
      ensures r.Success? ==> forall e :: e in r.value <==>
        e.0 in projects && e.1 == projects[e.0] && e.1.userId == caller.value
      ensures r.Success? ==> |r.value| == |Owned(projects, caller.value)|
    {
      if caller.None? {
        return Failure(NoCurrentUser);
      }
      var uid := caller.value;
      var owned := Owned(projects, uid);
      var rest := owned;
      var list: seq<(ProjectId, Project)> := [];
      while rest != {}
        invariant rest <= owned
        invariant NewestFirst(list)
        invariant forall e :: e in list <==> e.0 in owned - rest && e.1 == projects[e.0]
        invariant |list| == |owned - rest|
        decreases |rest|
      {
        var id :| id in rest;
        list := InsertNewestFirst(list, (id, projects[id]));
        assert owned - (rest - {id}) == (owned - rest) + {id};
        rest := rest - {id};
      }
      r := Success(list);
    }
  }
}
