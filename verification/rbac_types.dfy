/** Shared vocabulary of the RBAC policy facade: the caller, the resources and
    rules it asks about, and the pluggable backend whose resolvers answer the
    per-resource questions. Everything the facade reads from global state or the
    database is an explicit value here. */
module RbacTypes {

  datatype Option<+T> = None | Some(value: T)

  /** Values of `PermissionType` the facade names itself. */
  const WebhookCreate: string := "webhook_create"
  const ActionExecute: string := "action_execute"

  /** The value of `ResourceType` under which the action resolver is found. */
  const ResourceTypeAction: string := "action"

  /** The authenticated caller (`user_db`) together with the names of the roles
      the role service reports for it, local and remote assignments alike. */
  datatype User = User(name: string, roleNames: seq<string>)

  /** A resource instance, persisted or still an API payload; the resolvers
      identify it by its type and UID. */
  datatype Resource = Resource(resourceType: string, uid: string)

  /** The trigger of a rule: its `type` entry and the remaining parameters. */
  datatype Trigger = Trigger(triggerType: string, parameters: map<string, string>)

  /** The parts of a rule API object the composite rule check reads. */
  datatype RuleApi = RuleApi(trigger: Trigger, actionRef: string)

  /** The three questions every per-resource-type resolver answers. */
  datatype Resolver = Resolver(
    hasPermission: (User, string) -> bool,
    hasResourceApiPermission: (User, Resource, string) -> bool,
    hasResourceDbPermission: (User, Resource, string) -> bool)

  /** The RBAC backend: resolver lookup by permission type and by resource type,
      and the rule resolver's trigger check (webhook permission on the trigger). */
  datatype Backend = Backend(
    resolverForPermissionType: string -> Resolver,
    resolverForResourceType: string -> Resolver,
    ruleTriggerPermission: (User, Trigger) -> bool)

  /** Action lookup by reference, and the placeholder action built from the
      reference when no such action is installed yet. */
  datatype ActionCatalog = ActionCatalog(
    actionByRef: string -> Option<Resource>,
    placeholderFor: string -> Resource)
}
