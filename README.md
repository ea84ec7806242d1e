# ht-organization-editor, modelled in Dafny

This project models the three custom elements that edit an organization:

- `ht-organization-editor`: the form for one organization.
- `ht-organization-editor-image`: the logo picker the form embeds as `#image`.
- `ht-organization-editor-avatar`: the avatar picker.

Each picker keeps one `data` field. It accepts a storage-browser selection only when the first selected item is a 512x512 image of an allowed format: `jpg` for the logo picker, `jpg` or `png` for the avatar picker. A rejected item raises one `show-toast` with a fixed text.

The editor routes its submit button on the empty-`orgId` sentinel:
- `add` writes a full new document, with stamped bookkeeping fields, to the `organizations` collection.
- `save` sends a partial update of the form's fields to the document `orgId`.
- `reset` clears the form and, for an existing organization, loads it; it always ends with `loading = false`.

Files:

- `events.dfy` (`Events`): the notifications `show-toast`, `on-add` and `on-updated`.
- `pickers.dfy` (`Pickers`): the picker class, its acceptance rule, and `Confirm`, the value-level effect of `_insertImage`. Both pickers are one class with a constant `allowedFormats`. Its two constructors `Logo` and `Avatar` stand for the two elements, which differ in nothing else.
- `picker_sessions.dfy` (`PickerSessions`): a picker driven by any sequence of its own actions (confirm a selection, reset). The lemmas here are about whole sessions: what the picker can hold, how many toasts it raises, what a reset forgets, and how the two pickers compare.
- `org_records.dfy` (`OrgRecords`): the form (nine text inputs and the description) and the documents built from it. A document is a map from fields to values, like the object `add`/`save` fill field by field. The file also holds the store's merge and the way `_setOrgData` reads a document back.
- `org_editor.dfy` (`OrgEditor`): the editor class. Its DOM inputs are a `form` field, its `#image` picker is an `ImagePicker` object, and its heading and button label are functions.

The outside world is modelled as follows:
- Store reads are a parameter: the fetched organization, or `None` when the document is missing or the read failed.
- How a store write settled (`Resolved` or `Rejected`) is a parameter.
- The signed-in user's uid is a parameter; `None` means no user.
- Store writes come back as `Write` values.
- The server timestamp is the opaque value `ServerTimestamp`.

How the editor persists and reports:
- `add` calls `collection("organizations").add(org)` directly.
- A write that throws leaves `loading` true and emits no event. This holds on the update path too: `on-updated` is dispatched only after the update resolves.
- There is no URL-slug or email field. The fields are the nine inputs `displayName`, `country`, `city`, `phone`, `website`, `google`, `facebook`, `twitter`, `github`, plus `image` and `description`.
- The editor embeds only the logo picker. The avatar picker is modelled on its own.

## Model

| member | source | states |
|---|---|---|
| `Pickers.ImagePicker.Logo` | ht-organization-editor-image.js:110-113 | a new logo picker has empty `data` and accepts `jpg` only |
| `Pickers.ImagePicker.Avatar` | ht-organization-editor-avatar.js:99-102 | a new avatar picker has empty `data` and accepts `jpg` and `png` |
| `Pickers.ImagePicker.InsertImage` | ht-organization-editor-image.js:128-145 | an empty selection changes nothing and raises nothing; an acceptable first item replaces `data` wholesale and raises nothing; otherwise `data` is unchanged and exactly one `show-toast` with the fixed text is raised |
| `Pickers.ImagePicker.Reset` | ht-organization-editor-image.js:147-149 | `data` is empty afterwards, whatever it held |
| `Pickers.Confirm` | ht-organization-editor-avatar.js:117-138 | at most one toast; `data` either stays or becomes the first selected item, and an acceptable first item always replaces it; a toast is raised iff there is a first item and it is rejected; `data` changes only to an acceptable item |
| `Pickers.OnlyFirstItemMatters` | ht-organization-editor-image.js:131 | two selections with the same first item have the same effect, so later items never matter |
| `Pickers.RuleExamples` | ht-organization-editor-avatar.js:121-125 | png 512x512 is rejected by the logo picker and accepted by the avatar picker; gif 512x512 and png 512x256 are rejected by the avatar picker; jpg 512x512 is accepted by the logo picker |
| `Pickers.LogoAcceptedByAvatar` | ht-organization-editor-image.js:132 | every item the logo picker accepts, the avatar picker accepts too |
| `Pickers.AvatarOnlyIsPng` | ht-organization-editor-avatar.js:121-125 | an item is accepted by the avatar picker but not by the logo picker iff it is a 512x512 png |
| `PickerSessions.Run` | ht-organization-editor-image.js:128-149 | a session of confirmations and resets raises at most one toast per action |
| `PickerSessions.RunStaysAdmissible` | ht-organization-editor-image.js:132-133 | a picker that starts empty or with an acceptable image only ever holds nothing or an acceptable image, whatever is selected and reset |
| `PickerSessions.RunToastsCountRejections` | ht-organization-editor-image.js:134-144 | over any session, the number of toasts equals the number of selections whose first item is rejected |
| `PickerSessions.ClearForgetsHistory` | ht-organization-editor-avatar.js:140-142 | after a reset, the final `data` is the same as for a fresh picker running the remaining actions |
| `PickerSessions.ClearIdempotent` | ht-organization-editor-image.js:147-149 | resetting twice is the same as resetting once |
| `PickerSessions.LogoSessionRunsOnAvatar` | ht-organization-editor-avatar.js:121-126 | a session the logo picker completes without a toast ends in the same state, with no toast, on the avatar picker |
| `OrgRecords.Fallback` | ht-organization-editor.js:164 | the empty-object fallback turns a falsy (undefined) picker value into `{}`, passes any other value through unchanged, and so never yields undefined |
| `OrgRecords.TextInputsAreStored` | ht-organization-editor.js:155-163 | each of the nine text inputs is written by `add` and sent by `save` |
| `OrgRecords.RecordKeysExact` | ht-organization-editor.js:149-165 | the document `add` writes has exactly the sixteen record fields |
| `OrgRecords.RecordStamps` | ht-organization-editor.js:150-154 | `created`/`updated` are the server-timestamp sentinel, `ownerId` is the signed-in uid, `sales` is 0 and `verified` is false, whatever the form holds |
| `OrgRecords.RecordCopiesForm` | ht-organization-editor.js:155-165 | each text field of the new document is its input's value; `image` is the picker value with the `{}` fallback; `description` is the widget's content |
| `OrgRecords.UpdateKeysExact` | ht-organization-editor.js:187-201 | the update `save` sends has exactly `updated`, the nine inputs, `image` and `description`, and never `created`, `ownerId`, `sales` or `verified` |
| `OrgRecords.UpdateCopiesForm` | ht-organization-editor.js:188-201 | the update holds a fresh `updated` sentinel and the form's values, with the `{}` image fallback |
| `OrgRecords.UpdateIsRecordWithoutBookkeeping` | ht-organization-editor.js:187-201 | from the same form, `save` sends exactly what `add` would write, minus the four creation-only fields |
| `OrgRecords.Merge` | ht-organization-editor.js:202-206 | a merged update replaces each field it sends and keeps every other stored field |
| `OrgRecords.Readback` | ht-organization-editor.js:127-139 | a document is read into the form iff its nine text fields are strings, its description is rich text and its image, when present, is an image value; the inputs get the stored strings, the description widget gets the stored description, and a missing image reads as undefined |
| `OrgRecords.ReadbackOfStoredForm` | ht-organization-editor.js:124-142 | a document holding a form's values, description and image reads back as exactly that form and image |
| `OrgRecords.CreatedRecordReadsBack` | ht-organization-editor.js:145-169 | loading the document `add` wrote gives back the form it was made from, with the image after the `{}` fallback |
| `OrgRecords.SavedRecordReadsBack` | ht-organization-editor.js:182-206 | for any stored document, merging a `save` makes it read back as the saved form, and its bookkeeping fields keep their stored values |
| `OrgEditor.Heading` | ht-organization-editor.js:44-46 | the heading is the "add organization" text iff `orgId` is empty, and the settings text otherwise |
| `OrgEditor.SubmitLabel` | ht-organization-editor.js:65-67 | the button label is "add" iff `orgId` is empty, and "save" otherwise |
| `OrgEditor.Editor.constructor` | ht-organization-editor.js:85-90 | a new editor has `orgId == ""`, `loading` true, the loading-data text, and an empty logo picker |
| `OrgEditor.Editor.SetDefaultData` | ht-organization-editor.js:106-122 | all nine inputs become empty, the picker is reset, the description goes back to the widget default, and nothing else changes |
| `OrgEditor.Editor.SetOrgData` | ht-organization-editor.js:124-143 | a fetched organization is copied into every input, the picker (unvalidated) and the description; a missing one (undefined) throws on first access and leaves the form as it was |
| `OrgEditor.Editor.Reset` | ht-organization-editor.js:219-223 | always ends with `loading` false; the form holds defaults when `orgId` is empty or nothing was fetched, and the fetched organization otherwise; `orgId` is unchanged |
| `OrgEditor.Editor.Add` | ht-organization-editor.js:145-180 | with a signed-in user, writes exactly `NewRecord` of the current form to `organizations`; only a resolved write emits `on-add` and ends loading; without a user, or when the write throws, nothing is emitted and `loading` stays true |
| `OrgEditor.Editor.Save` | ht-organization-editor.js:182-217 | sends exactly `UpdateOf` the current form to the document `orgId`; only a resolved update emits `on-updated` and ends loading; a thrown update leaves `loading` true |
| `OrgEditor.Editor.Submit` | ht-organization-editor.js:65-67 | runs `add` iff `orgId` is empty and `save` otherwise, setting the creating or the saving text accordingly, following the same test as the heading and the label; it emits one completion event exactly when a write was issued and resolved, and `loading` stays true exactly when nothing was emitted |

## Left out

- Rendering (`_render`/`render`, styles, the spinner's visibility) and the picker's preview URL built from `window.cloudinaryURL`: these are presentation only.
- `_showDialog` (opening the dialog, `ht-storage.updateList()`): it delegates to external widgets and has no state of its own. The storage browser's selection is the `selected` parameter of `InsertImage`.
- `_getOrgData` is folded into the `fetched` parameter of `SetOrgData`/`Reset`. A missing document and a caught read error both become `None`, since both make `_getOrgData` return undefined.
- The store, the authentication client and `FieldValue.serverTimestamp()` are foreign calls. Their answers are parameters, their writes are returned values, and the timestamp is an opaque sentinel. `Merge` models a Firestore `update` as a top-level field override.
- The rich-text widget: its document is an opaque `Description`, and `Blank` stands for whatever `setDefaultData()` installs.
- `Readback` covers stored documents whose nine text fields are strings, whose description is rich text and whose image, when present, is an image value. Such documents are the ones `add` and `save` write. For other documents (one without `country`, say), `_setOrgData` would copy undefined or a non-string value into that input and carry on. The model's string-valued form cannot hold those, so `SetOrgData` takes the document already read. `Readback` returning `None` for such a document is therefore not the `None` that `SetOrgData` receives for a missing document, which throws and leaves the form unchanged.
- `OrgEditor.Editor.constructor`: the source leaves the inputs unset until `reset`; the model starts them at the defaults.
- Exceptions thrown by `querySelector` before the shadow DOM exists, and by the widgets' own methods, are not modelled.
- Asynchrony, re-entrant `add`/`save` calls, and the `console.log` diagnostics are not modelled.
