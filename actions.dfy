/**
 * A custom action on a resource instance: the action name that rackit
 * appends to the instance's URL and the JSON body it posts there.
 */
module Actions {
  import opened Json

  datatype ActionCall = ActionCall(action: string, body: Json)
}
