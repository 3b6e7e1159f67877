/** The vocabulary of the operator: actions, states, resource identities and status entries. */
module Types {

  datatype Option<+T> = None | Some(value: T)

  type Category = string
  type Name = string
  type Labels = map<string, string>
  type Fields = map<string, string>

  datatype Action =
    | Create | Update | RollingUpdate | Scale | Recycle | Delete | SoftDelete
    | Stop | Start | Restart | ReCreate | Non | FailOver

  /** Only the states the planner and the executor write or test are named.
      Unset is the empty string, the zero value of a missing entry. */
  datatype State = Unset | Preparing | WaitRestart | InProgress | Success | Failed | OtherState(text: string)

  /** The identity of a resource: its name keys the status map, its category keys the plan. */
  datatype Meta = Meta(name: Name, category: Category, kind: Kind)

  datatype Kind = Service | ConfigMap | StatefulSet | Job | CronJob | Secret | OtherKind

  /** One claim template: the category label of its claims, requested and limiting storage, None
      where the resource list is absent. */
  datatype Claim = Claim(category: Category, request: Option<int>, limit: Option<int>)

  /** A cluster object.  Content is kept as leaf fields, so that an override merge is a map
      override; template, selector, claims and replicas are those of a StatefulSet. */
  datatype Object = Object(
    kind: Kind,
    labels: Labels,
    fields: Fields,
    template: Fields,
    selector: Option<string>,
    claims: seq<Claim>,
    replicas: int)

  /** A fingerprint before hashing: the md5 text is replaced by what it is computed from. */
  datatype Uid = NoUid | OfNothing | Of(data: Object)

  datatype ActionState = ActionState(state: State, cause: string, message: string)

  datatype ComponentState = ComponentState(
    uid: Uid,
    nextUid: Uid,
    details: map<string, string>,
    state: State,
    actions: map<Action, ActionState>,
    message: string)

  type Status = map<Name, ComponentState>

  /** The pods template-0 .. template-(count-1) that a restart or a fail-over names. */
  datatype Pods = NoPods | Pods(template: string, count: int)

  /** A planned command.  owner is the resource meta, which base handlers leave unset; target is
      the built-in object the command acts on (a restart only names pods). */
  datatype Command = Command(
    action: Action,
    category: Category,
    owner: Option<Meta>,
    message: string,
    target: Option<Object>,
    pods: Pods)

  /** One line of the resource list: what was observed in the cluster and what is desired. */
  datatype Resource = Resource(meta: Meta, observed: Option<Object>, desired: Option<Object>)

  /** The key by which the plan removes duplicates. */
  datatype Key = Key(action: Action, category: Category)

  function KeyOf(c: Command): Key {
    Key(c.action, c.category)
  }

  function KeysOf(cs: seq<Command>): set<Key> {
    set c | c in cs :: KeyOf(c)
  }

  ghost predicate Distinct<T>(s: seq<T>) {
    forall i, j :: 0 <= i < j < |s| ==> s[i] != s[j]
  }

  function Min(a: int, b: int): int {
    if a <= b then a else b
  }
}
