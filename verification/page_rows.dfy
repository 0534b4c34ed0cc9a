/** The rows of the `pages` and `page_deployments` tables and what each store
    operation does to them, as functions on values. */
module PageRows {
  import opened Options

  type PageId = nat
  type DepId = nat

  datatype PageStatus = Idle | Deploying | Live | Errored | Draining

  datatype Provider = AwsCloudFront | CloudflarePages

  /** The cloud resource identifiers a page's runtime column can hold. */
  datatype RuntimeField =
    | BucketName | DistributionID | DistributionARN | OACID | DefaultURL
    | CertificateARN | CertStatus | ValidationRecord | AliasTarget
    | CFProjectName | CFProjectID

  /** Absent keys are the empty strings of the stored struct. */
  type Runtime = map<RuntimeField, string>

  datatype Page = Page(
    provider: Provider,
    cloudAccount: Option<nat>,
    region: string,
    publishPath: string,
    buildEnabled: bool,
    runtime: Runtime,
    status: PageStatus)

  datatype DepStatus = Queued | Running | Success | Failed | Cancelled

  datatype Deployment = Deployment(
    page: PageId,
    status: DepStatus,
    publishPath: string,
    commitSHA: string,
    providerRef: string,
    createdAt: int,
    startedAt: Option<int>,
    finishedAt: Option<int>)

  /** Rows by identifier; a deployment's identifier is its position in creation order. */
  type Pages = map<PageId, Page>
  type Deployments = seq<Deployment>

  predicate IsTerminal(s: DepStatus) {
    s == Success || s == Failed || s == Cancelled
  }

  predicate IsActive(s: DepStatus) {
    s == Queued || s == Running
  }

  predicate CloudProvisioned(page: Page) {
    match page.provider
    case CloudflarePages => CFProjectID in page.runtime
    case AwsCloudFront => BucketName in page.runtime || DistributionID in page.runtime
  }

  // ---------------------------------------------------------------- page store

  /** Status column only; an absent row is left absent. */
  function WithStatus(pages: Pages, id: PageId, status: PageStatus): Pages {
    if id in pages then pages[id := pages[id].(status := status)] else pages
  }

  /** Runtime column only. */
  function WithRuntime(pages: Pages, id: PageId, rt: Runtime): Pages {
    if id in pages then pages[id := pages[id].(runtime := rt)] else pages
  }

  /** The columns a settings write carries; runtime and status stay as stored. */
  function Settled(stored: Page, edited: Page): Page {
    stored.(cloudAccount := edited.cloudAccount, region := edited.region,
            publishPath := edited.publishPath, buildEnabled := edited.buildEnabled)
  }

  function WithSettings(pages: Pages, id: PageId, edited: Page): Pages {
    if id in pages then pages[id := Settled(pages[id], edited)] else pages
  }

  /** The guard shared by the three conditional page writes. */
  predicate NotDeploying(pages: Pages, id: PageId) {
    id in pages && pages[id].status != Deploying
  }

  // ---------------------------------------------------------- deployment store

  /** MarkTimedOut's guard. */
  predicate StillRunning(deps: Deployments, id: DepId) {
    id < |deps| && deps[id].status == Running
  }

  /** The row a trigger creates. */
  function QueuedRow(page: PageId, now: int): Deployment {
    Deployment(page, Queued, ".", "", "", now, None, None)
  }

  function AsFailed(row: Deployment, now: int): Deployment {
    row.(status := Failed, finishedAt := Some(now))
  }

  /** The success with the greatest creation time, as the dedup lookup reads it. */
  function LatestSuccess(deps: Deployments, page: PageId): (r: Option<DepId>)
    ensures r.Some? ==> r.value < |deps| && deps[r.value].page == page && deps[r.value].status == Success
  {
    if |deps| == 0 then None
    else
      var last := |deps| - 1;
      if deps[last].page == page && deps[last].status == Success then Some(last)
      else LatestSuccess(deps[..last], page)
  }

  /** The lookup finds the greatest index holding a success, and misses only when there is none. */
  lemma {:induction false} LatestSuccessIsLast(deps: Deployments, page: PageId)
    ensures forall d :: 0 <= d < |deps| && deps[d].page == page && deps[d].status == Success
              ==> LatestSuccess(deps, page).Some? && d <= LatestSuccess(deps, page).value
  {
    if |deps| > 0 {
      LatestSuccessIsLast(deps[..|deps| - 1], page);
    }
  }

  /** Two tables with the same successes of a page give the same lookup. */
  lemma LatestSuccessAgrees(deps: Deployments, deps': Deployments, page: PageId)
    requires forall d :: 0 <= d < |deps| && deps[d].page == page && deps[d].status == Success
               ==> d < |deps'| && deps'[d].page == page && deps'[d].status == Success
    requires forall d :: 0 <= d < |deps'| && deps'[d].page == page && deps'[d].status == Success
               ==> d < |deps| && deps[d].page == page && deps[d].status == Success
    ensures LatestSuccess(deps, page) == LatestSuccess(deps', page)
  {
    LatestSuccessIsLast(deps, page);
    LatestSuccessIsLast(deps', page);
  }

  // --------------------------------------------------------------- edit request

  datatype Patch = Patch(
    cloudAccount: Option<nat>,
    region: Option<string>,
    publishPath: Option<string>,
    buildEnabled: Option<bool>)

  datatype EditPlan = Refused | Plan(edited: Page, retargets: bool)

  /** What a settings request does to the snapshot it loaded: refuse, or a new
      page together with whether the cloud target is being repointed. */
  function PlanEdit(snap: Page, patch: Patch): EditPlan {
    var page := if patch.buildEnabled.Some? then snap.(buildEnabled := patch.buildEnabled.value) else snap;
    var page := if patch.publishPath.Some? then page.(publishPath := patch.publishPath.value) else page;
    var accountChanges := patch.cloudAccount.Some? && page.cloudAccount != patch.cloudAccount;
    if accountChanges && (page.status == Deploying || CloudProvisioned(page)) then Refused
    else
      var page := if patch.cloudAccount.Some? then page.(cloudAccount := patch.cloudAccount) else page;
      if patch.region.Some? && page.provider != AwsCloudFront then Refused
      else
        var regionChanges := patch.region.Some? && patch.region.value != page.region;
        if regionChanges && (page.status == Deploying || BucketName in page.runtime) then Refused
        else
          var page := if patch.region.Some? then page.(region := patch.region.value) else page;
          Plan(page, accountChanges || regionChanges)
  }

  /** What a field holds after a request that may give it a value. */
  function Given<T>(given: Option<T>, stored: T): T {
    if given.Some? then given.value else stored
  }

  /** The requests a page turns down: another account while a deploy runs or
      resources exist, any region off CloudFront, another region while a deploy
      runs or a bucket exists. */
  predicate TurnsDown(page: Page, patch: Patch) {
    || (patch.cloudAccount.Some? && patch.cloudAccount != page.cloudAccount
        && (page.status == Deploying || CloudProvisioned(page)))
    || (patch.region.Some? && page.provider != AwsCloudFront)
    || (patch.region.Some? && patch.region.value != page.region
        && (page.status == Deploying || BucketName in page.runtime))
  }

  /** The page a request asks for: each setting it gives, and the stored rest. */
  function Requested(page: Page, patch: Patch): Page {
    Page(page.provider,
         if patch.cloudAccount.Some? then patch.cloudAccount else page.cloudAccount,
         Given(patch.region, page.region),
         Given(patch.publishPath, page.publishPath),
         Given(patch.buildEnabled, page.buildEnabled),
         page.runtime, page.status)
  }

  /** The checks, made one setting at a time, refuse exactly those requests and
      plan exactly that page. */
  lemma PlanMeans(snap: Page, patch: Patch)
    ensures PlanEdit(snap, patch).Refused? <==> TurnsDown(snap, patch)
    ensures PlanEdit(snap, patch).Plan? ==> PlanEdit(snap, patch).edited == Requested(snap, patch)
  {
  }

  predicate SameTarget(a: Page, b: Page) {
    a.cloudAccount == b.cloudAccount && a.region == b.region
  }

  /** A plan repoints the target exactly when it says so, and then only away
      from a snapshot that showed no resources pinned to the old target. */
  lemma PlanTargets(snap: Page, patch: Patch)
    requires PlanEdit(snap, patch).Plan?
    ensures PlanEdit(snap, patch).retargets <==> !SameTarget(PlanEdit(snap, patch).edited, snap)
    ensures PlanEdit(snap, patch).retargets ==> snap.status != Deploying
    ensures PlanEdit(snap, patch).edited.cloudAccount != snap.cloudAccount ==> !CloudProvisioned(snap)
    ensures PlanEdit(snap, patch).edited.region != snap.region ==>
              snap.provider == AwsCloudFront && BucketName !in snap.runtime
  {
  }
}
