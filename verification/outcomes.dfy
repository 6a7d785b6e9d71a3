/** The typed denials the facade raises, and the messages it composes for them.
    An assertion that would raise returns `Denied` instead. */
module Outcomes {
  import opened RbacTypes

  /** One variant per exception class, carrying that constructor's arguments. */
  datatype AccessError =
    | AccessDeniedError(message: string, userName: string)
    | ResourceTypeAccessDeniedError(userName: string, permissionType: string)
    | ResourceAccessDeniedError(userName: string, resource: Resource, permissionType: string)

  datatype Outcome = Ok | Denied(error: AccessError)

  const AdminRequiredMessage: string := "Administrator access required"
  const SystemAdminRequiredMessage: string := "System Administrator access required"
  const AdminOrSelfRequiredMessage: string := "Administrator or self access required"
  const UserParamNeedsRbacMessage: string :=
    "\"user\" attribute can only be provided by admins when RBAC is enabled"
  const UserParamNeedsAdminMessage: string := "\"user\" attribute can only be provided by admins"

  /** Denial message when the caller may not use the rule's trigger. */
  function TriggerDeniedMessage(userName: string, triggerType: string): string {
    "User \"" + userName + "\" doesn't have required permission (" + WebhookCreate
    + ") to use trigger " + triggerType
  }

  /** Denial message when the caller may not execute the rule's action. */
  function ActionDeniedMessage(userName: string, actionRef: string): string {
    "User \"" + userName + "\" doesn't have required (" + ActionExecute
    + ") permission to use action " + actionRef
  }

  /** Fixed text both rule-check messages share after the quoted user name. */
  const RequiredPhrase: string := "\" doesn't have required "

  /** Both rule-check messages begin with the same user-specific prefix and
      continue with different text, the first saying "permission (" and the
      second "(" followed by the permission type. */
  lemma RuleMessagesShape(userName: string, triggerType: string, actionRef: string)
    ensures var prefix := "User \"" + userName + RequiredPhrase;
            && TriggerDeniedMessage(userName, triggerType)
               == prefix + "permission (" + WebhookCreate + ") to use trigger " + triggerType
            && ActionDeniedMessage(userName, actionRef)
               == prefix + "(" + ActionExecute + ") permission to use action " + actionRef
  {
  }

  /** For one user the trigger denial and the action denial never carry the same
      message, so the message tells which of the two checks failed. */
  lemma RuleMessagesDistinct(userName: string, triggerType: string, actionRef: string)
    ensures TriggerDeniedMessage(userName, triggerType) != ActionDeniedMessage(userName, actionRef)
  {
    RuleMessagesShape(userName, triggerType, actionRef);
    var prefix := "User \"" + userName + RequiredPhrase;
    var t := TriggerDeniedMessage(userName, triggerType);
    var a := ActionDeniedMessage(userName, actionRef);
    assert t[|prefix|] == 'p';
    assert a[|prefix|] == '(';
  }
}
