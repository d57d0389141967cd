/**
 * The per-image decision table of the dispatch loop: which collaborator
 * calls one iteration makes for one image key, and in what order.
 */
module Policy {
  import opened Cli

  /** One call the dispatch loop makes on the configuration store, an image configuration or the cloud driver. */
  datatype Call =
    | GetConfig(key: ImageKey)
    | LoadMeta(key: ImageKey)
    | Retrieve(key: ImageKey)
    | Convert(key: ImageKey)
    | UploadImg(key: ImageKey)
    | CloudImport(key: ImageKey)
    | SignImg(key: ImageKey)
    | PublishImg(key: ImageKey)
    | ReleaseImg(key: ImageKey)
    | SaveMeta(key: ImageKey, action: Action)

  /**
   * What one iteration of the loop observes of its environment: whether the
   * local image file exists, and the capability names the cloud driver reports
   * for the image's configuration.
   */
  datatype Probe = Probe(imagePresent: bool, cloudActions: set<string>)

  predicate IsLookup(c: Call) { c.GetConfig? }

  predicate IsLoad(c: Call) { c.LoadMeta? }

  predicate IsSave(c: Call) { c.SaveMeta? }

  /** The calls that carry out an action itself (not looking up, loading, retrieving or saving). */
  predicate IsActionStep(c: Call) {
    c.Convert? || c.UploadImg? || c.CloudImport? || c.SignImg? || c.PublishImg? || c.ReleaseImg?
  }

  /** The retrieve condition: `import` and `sign` fetch the image only when it is not present locally. */
  predicate NeedsRetrieve(action: Action, imagePresent: bool) {
    (action == Import || action == Sign) && !imagePresent
  }

  /** The action-specific operation each action stands for. */
  function Operation(action: Action, key: ImageKey): (c: Call)
    ensures IsActionStep(c) && c.key == key
  {
    match action
    case Local => Convert(key)
    case Upload => UploadImg(key)
    case Import => CloudImport(key)
    case Sign => SignImg(key)
    case Publish => PublishImg(key)
    case Release => ReleaseImg(key)
  }

  /** Different actions stand for different operations, so the operation is chosen by the action alone. */
  lemma OperationInjective(a: Action, b: Action, key: ImageKey)
    ensures Operation(a, key) == Operation(b, key) <==> a == b
  {
  }

  /** Whether the action step runs: always, except `publish` on a driver without that capability. */
  predicate StepRuns(action: Action, cloudActions: set<string>) {
    action != Publish || "publish" in cloudActions
  }

  /**
   * The calls made for one image key: look up its configuration, load its
   * metadata, retrieve the image when needed, run the action's operation (if
   * it runs), save its metadata under the action's name.
   */
  function KeyCalls(action: Action, key: ImageKey, p: Probe): (r: seq<Call>)
  {
    [GetConfig(key), LoadMeta(key)]
    + (if NeedsRetrieve(action, p.imagePresent) then [Retrieve(key)] else [])
    + (if StepRuns(action, p.cloudActions) then [Operation(action, key)] else [])
    + [SaveMeta(key, action)]
  }

  /**
   * The frame of one key's block: it starts with the configuration lookup,
   * then the metadata load, and ends with the one save, tagged with the
   * action; each occurs exactly once and every call is about that key.
   */
  lemma KeyCallsFrame(action: Action, key: ImageKey, p: Probe)
    ensures var r := KeyCalls(action, key, p);
            3 <= |r| <= 5 &&
            r[0] == GetConfig(key) && r[1] == LoadMeta(key) &&
            r[|r| - 1] == SaveMeta(key, action) &&
            (forall j :: 0 <= j < |r| ==> r[j].key == key) &&
            (forall j :: 0 <= j < |r| ==> (IsLookup(r[j]) <==> j == 0)) &&
            (forall j :: 0 <= j < |r| ==> (IsLoad(r[j]) <==> j == 1)) &&
            (forall j :: 0 <= j < |r| ==> (IsSave(r[j]) <==> j == |r| - 1))
  {
  }

  /**
   * The steps of one key's block: it retrieves exactly when the action needs
   * the missing image, and then before the action step. At most one action
   * step runs, the one the action stands for; it is skipped only for
   * `publish` without the capability.
   */
  lemma KeyCallsSteps(action: Action, key: ImageKey, p: Probe)
    ensures var r := KeyCalls(action, key, p);
            (Retrieve(key) in r <==> NeedsRetrieve(action, p.imagePresent)) &&
            (Operation(action, key) in r <==> StepRuns(action, p.cloudActions)) &&
            (forall j :: 0 <= j < |r| && IsActionStep(r[j]) ==> r[j] == Operation(action, key)) &&
            (forall i, j :: 0 <= i < j < |r| && IsActionStep(r[i]) ==> !IsActionStep(r[j])) &&
            (forall i, j :: 0 <= i < |r| && 0 <= j < |r| && r[i].Retrieve? && IsActionStep(r[j]) ==> i < j)
  {
  }
}
