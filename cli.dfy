/**
 * The command line of the cloud helper: the fixed set of actions and the
 * positional arguments `action` (one of the actions) and `IMAGE_KEY ...`
 * (one or more image keys).
 */
module Cli {
  import opened Wrappers

  /** The lifecycle actions, one per accepted value of the `action` argument. */
  datatype Action = Local | Upload | Import | Sign | Publish | Release

  /** An image key: the name of one image configuration. */
  type ImageKey = string

  /** The accepted action names, in the order the helper lists them. */
  const ActionNames: seq<string> := ["local", "upload", "import", "sign", "publish", "release"]

  /** The name under which an action is given on the command line. */
  function Name(a: Action): (s: string)
    ensures s in ActionNames
  {
    match a
    case Local => "local"
    case Upload => "upload"
    case Import => "import"
    case Sign => "sign"
    case Publish => "publish"
    case Release => "release"
  }

  /** The argument check of `action`: only a listed name is accepted. */
  function ParseAction(s: string): (r: Option<Action>)
    ensures r.Some? <==> s in ActionNames
    ensures r.Some? ==> Name(r.value) == s
  {
    if s == "local" then Some(Local)
    else if s == "upload" then Some(Upload)
    else if s == "import" then Some(Import)
    else if s == "sign" then Some(Sign)
    else if s == "publish" then Some(Publish)
    else if s == "release" then Some(Release)
    else None
  }

  /** Every action's name parses back to that action, so names are distinct. */
  lemma ParseName(a: Action)
    ensures ParseAction(Name(a)) == Some(a)
  {
  }

  /** Why the command line was refused (the parser then exits with a usage message). */
  datatype ArgError =
    | InvalidChoice(value: string)
    | MissingArguments(names: seq<string>)

  /** A parsed command line: one action and a non-empty list of image keys. */
  datatype Invocation = Invocation(action: Action, imageKeys: seq<ImageKey>)

  /**
   * Parses the positional tokens of the command line. The `action` token is
   * matched and checked against the choices as soon as it is consumed, so an
   * unknown action is reported before the missing image keys are.
   */
  function ParseArgs(positionals: seq<string>): (r: Result<Invocation, ArgError>)
    ensures r.Ok? <==> |positionals| >= 2 && positionals[0] in ActionNames
    ensures r.Ok? ==>
      Name(r.value.action) == positionals[0] &&
      r.value.imageKeys == positionals[1..] && |r.value.imageKeys| >= 1
    ensures |positionals| >= 1 && positionals[0] !in ActionNames ==>
      r == Err(InvalidChoice(positionals[0]))
    ensures positionals == [] ==> r == Err(MissingArguments(["action", "IMAGE_KEY"]))
    ensures |positionals| == 1 && positionals[0] in ActionNames ==>
      r == Err(MissingArguments(["IMAGE_KEY"]))
  {
    if |positionals| == 0 then
      Err(MissingArguments(["action", "IMAGE_KEY"]))
    else
      match ParseAction(positionals[0])
      case None => Err(InvalidChoice(positionals[0]))
      case Some(a) =>
        if |positionals| == 1 then Err(MissingArguments(["IMAGE_KEY"]))
        else Ok(Invocation(a, positionals[1..]))
  }
}
