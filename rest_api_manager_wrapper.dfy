/** `RestApiManagerWrapper`: the connection object handed out by the
    connection support, pairing a manager with the selected group id. */
module FivetranHelpers {
  import opened Wrappers
  import opened DotNet
  import opened FivetranClient

  const ManagerNullMessage: string := "RestApiManager cannot be null."
  const GroupIdMessage: string := "Group ID cannot be null or empty."

  /** The constructor's guards, in order: the manager must not be null, then
      the group id must not be null, empty or white space. */
  function WrapperArgumentError(restApiManager: RestApiManager?, groupId: Option<string>): (r: Option<Exception>)
    ensures r.None? <==> restApiManager != null && !IsNullOrWhiteSpace(groupId)
    ensures restApiManager == null ==> r == Some(ArgumentNullException(ManagerNullMessage, "restApiManager"))
    ensures restApiManager != null && IsNullOrWhiteSpace(groupId) ==>
              r == Some(ArgumentException(GroupIdMessage, "groupId"))
  {
    if restApiManager == null then Some(ArgumentNullException(ManagerNullMessage, "restApiManager"))
    else if IsNullOrWhiteSpace(groupId) then Some(ArgumentException(GroupIdMessage, "groupId"))
    else None
  }

  class RestApiManagerWrapper {
    const restApiManager: RestApiManager
    const groupId: string

    ghost predicate Valid() {
      restApiManager.Valid() && !IsNullOrWhiteSpace(Some(groupId))
    }

    /** The objects `Dispose` may change. */
    ghost function Footprint(): set<object> {
      {restApiManager} + restApiManager.Owned()
    }

    /** The part of the constructor after its guards have passed. */
    constructor (restApiManager: RestApiManager, groupId: string)
      requires restApiManager.Valid() && !IsNullOrWhiteSpace(Some(groupId))
      ensures Valid()
      ensures this.restApiManager == restApiManager && this.groupId == groupId
    {
      this.restApiManager := restApiManager;
      this.groupId := groupId;
    }

    /** Each call disposes the held manager once. */
    method Dispose()
      requires Valid()
      modifies Footprint()
      ensures restApiManager.disposeCalls == old(restApiManager.disposeCalls) + 1
      ensures restApiManager.createdClient != null ==>
                restApiManager.createdClient.disposed
                && restApiManager.createdClient.disposeCalls == old(restApiManager.createdClient.disposeCalls) + 1
      ensures restApiManager.createdClient == null ==> unchanged(restApiManager.client)
      ensures restApiManager.createdClient != null ==> restApiManager.client.disposed
    {
      restApiManager.Dispose();
    }
  }

  /** `new RestApiManagerWrapper(restApiManager, groupId)`: the guards of
      `WrapperArgumentError`, then a wrapper holding both arguments. */
  method NewRestApiManagerWrapper(restApiManager: RestApiManager?, groupId: Option<string>)
    returns (r: Result<RestApiManagerWrapper, Exception>)
    requires restApiManager != null ==> restApiManager.Valid()
    ensures r.Err? <==> WrapperArgumentError(restApiManager, groupId).Some?
    ensures r.Err? ==> r.error == WrapperArgumentError(restApiManager, groupId).value
    ensures r.Ok? ==> fresh(r.value) && r.value.Valid()
    ensures r.Ok? ==> r.value.restApiManager == restApiManager && r.value.groupId == groupId.value
  {
    var error := WrapperArgumentError(restApiManager, groupId);
    if error.Some? {
      return Err(error.value);
    }
    var w := new RestApiManagerWrapper(restApiManager, groupId.value);
    return Ok(w);
  }
}
