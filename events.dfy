/** Notifications the components dispatch (bubbling, composed custom events). */
module Events {

  datatype Event =
    | ShowToast(text: string)  // "show-toast", detail {text}
    | OnAdd                    // "on-add": a new organization was written
    | OnUpdated                // "on-updated": an existing organization was written
}
