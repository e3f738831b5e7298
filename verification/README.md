# TopoMojo front end: client-side state, modelled in Dafny

TopoMojo is a lab-building platform: users build virtual-machine
workspaces from templates, hand them out as gamespaces and work on their
VMs through a browser console. This project models the state the Angular
front end keeps between its HTTP calls and its views:

- the ISO, network and template picker data sources (display names taken
  from server paths, the cache, the term filter, the name sort, the page
  slice, `total` and `more`);
- the paged admin lists of people and workspaces (`fetch`, `more`,
  `select`, deletion by `splice(indexOf(x), 1)`, the template-limit
  change, the comma-joined worker list);
- the document editor's save loop (a dirty flag, one lazily started
  30-second save interval, a save whose reply clears the flag);
- the VM console's state machine (state icons, the `clip:` side channel,
  the state button, the outcome of a ticket) and the mock console service
  that cycles forbidden, failed, connected;
- the settings service (the layered settings merge, three stored local
  preferences updated only when they change, the tab-opening decision);
- the template-settings, workspace-settings, VM-question and
  workspace-creator panels;
- the `spaces` and `untagged` display pipes.

Components whose methods update their own fields are classes with those
fields; a request is a method that returns what it sends, and the reply is
a separate method that takes the server's answer as a parameter (`None`
for a failed request). Pure expressions are functions, and the properties
relating several calls are lemmas. Shared JavaScript behaviour lives in
`Text` (`split`, `join`, `includes`, the last piece after a separator) and
`JsArray` (`indexOf`, `findIndex`, `splice(i, 1)` including a negative
start, `slice`).

Descriptions of TopoMojo's document editor can suggest real-time
collaborative editing. The code has no edit log, no edit transformation
and no presence tracking: it is a single-user save loop, and the model
follows the code.

## Model

| member | source | states |
|---|---|---|
| DataSources.IsoName | src/app/ui/datasources.ts:93 | an ISO's name holds no `/`, is a suffix of its path, and is preceded in the path by a `/` when shorter than it |
| DataSources.NetName | src/app/ui/datasources.ts:48 | a network's name is a prefix of its path holding no `#`, followed in the path by `#` when shorter than it |
| DataSources.NetNameIsUntagged | src/app/ui/datasources.ts:48 | `split('#').reverse().pop()` gives the same text as the `untagged` pipe: the text before the first `#` |
| DataSources.IsoEntries | src/app/ui/datasources.ts:93 | one row per ISO path, in order, keeping the path verbatim beside its derived name |
| DataSources.NetEntries | src/app/ui/datasources.ts:48 | one row per network path, in order, keeping the path verbatim beside its derived name |
| DataSources.NameMatches | src/app/ui/datasources.ts:56 | a row matches exactly when the term occurs in its name; the empty term matches every name |
| DataSources.FilterByTerm | src/app/ui/datasources.ts:56 | the filter never lengthens the list |
| DataSources.FilterByTermConcat | src/app/ui/datasources.ts:56 | the filter works row by row: filtering a concatenation concatenates the filtered parts, so kept rows stay in cache order |
| DataSources.FilterByTermCounts | src/app/ui/datasources.ts:56 | every row is kept, as often as it occurs, exactly when its name contains the term, and no other row appears |
| DataSources.FilterByTermMembers | src/app/ui/datasources.ts:109 | the filtered rows are exactly the cache rows whose names match |
| DataSources.FilterByEmptyTerm | src/app/ui/datasources.ts:108-110 | the empty term matches every name, so filtering by it keeps the whole cache |
| DataSources.IsoFilter | src/app/ui/datasources.ts:107-110 | `filterCache` hands back the cache itself for an empty term and the term filter otherwise |
| DataSources.IsoFilterIsFilter | src/app/ui/datasources.ts:107-110 | the empty-term shortcut gives the same rows as filtering would |
| DataSources.NameLeTotal | src/app/ui/datasources.ts:102 | the name order used by the sort is total |
| DataSources.InsertByName | src/app/ui/datasources.ts:102 | inserting a row adds exactly that row (as a multiset) and grows the list by one |
| DataSources.SortByName | src/app/ui/datasources.ts:102 | the sort is a permutation of its input |
| DataSources.InsertKeepsSorted | src/app/ui/datasources.ts:102 | inserting into a list sorted by name keeps it sorted |
| DataSources.SortByNameSorted | src/app/ui/datasources.ts:102 | the sort's output is ascending by name |
| DataSources.IsoPage | src/app/ui/datasources.ts:100-103 | the emitted ISO page holds at most `take` rows and no more rows than the cache |
| DataSources.IsoPageWindow | src/app/ui/datasources.ts:99-104 | an ISO page is exactly the sorted matches from position `skip` up to `skip + take` or their end, so it has min(skip + take, matches) − skip rows; it is empty when `skip` is past the matches or `take` is 0 |
| DataSources.IsoPageContents | src/app/ui/datasources.ts:99-104 | an ISO page is sorted by name and holds only cache rows whose names match the term |
| DataSources.NetPage | src/app/ui/datasources.ts:55-57 | the emitted network page holds at most `take` rows, no more rows than the cache, and only cache rows whose names match |
| DataSources.NetPageWindow | src/app/ui/datasources.ts:54-58 | a network page is the matches from `skip` up to `take` (not `skip + take`), and is empty whenever `skip >= take`; with FilterByTermConcat the matches are in cache order and never re-sorted |
| DataSources.ReusesCache | src/app/ui/datasources.ts:37 | `load` answers from the cache exactly when there is one and the search has a term or a non-zero skip |
| DataSources.VmNetDataSource.constructor | src/app/ui/datasources.ts:17-27 | a new source has no cache, `total` 0, `more` false and a subject holding `[]` |
| DataSources.VmNetDataSource.Load | src/app/ui/datasources.ts:37-52 | with a cache and a term or a skip nothing is fetched and the cache is re-emitted; otherwise a reply replaces the cache with the named entries, sets `total` to their number and emits; a failed fetch changes nothing |
| DataSources.VmNetDataSource.EmitResults | src/app/ui/datasources.ts:54-59 | emits the network page of the cache for the search |
| DataSources.IsoDataSource.constructor | src/app/ui/datasources.ts:62-72 | a new source has no cache, `total` 0, `more` false and a subject holding `[]` |
| DataSources.IsoDataSource.Load | src/app/ui/datasources.ts:82-97 | the same cache rule as for networks; after an emit `total` is the number of cached entries matching the term and the emitted page is the ISO page |
| DataSources.IsoDataSource.EmitResults | src/app/ui/datasources.ts:99-105 | emits the ISO page, sets `total` to the number of matches, and with an empty term leaves the cache itself sorted (the sort works in place on it) |
| DataSources.IsoDataSource.FilterCache | src/app/ui/datasources.ts:107-114 | returns the matching rows (the cache itself for an empty term) and sets `total` to their number |
| DataSources.TemplateDataSource.constructor | src/app/ui/datasources.ts:122-129 | a new source has `total` 0, `more` false and a subject holding `[]` |
| DataSources.TemplateDataSource.Load | src/app/ui/datasources.ts:139-150 | `total` is the result length, `more` holds exactly when that length equals `take`, a failed request counts as an empty result, and the result is emitted |
| Paging.Append | src/app/ui/admin/people/people.component.ts:55-56 | a reply appends its page after the existing rows, in order, and moves `skip` by the page length |
| Paging.AppendAllContents | src/app/ui/admin/people/people.component.ts:52-58 | any sequence of replies appends all their pages in arrival order and moves `skip` by their total length |
| Paging.SkipTracksLength | src/app/ui/admin/people/people.component.ts:46-58 | after a `fetch` and any number of completed `more` replies, `skip` equals the list length and the list is the pages in order |
| Paging.HasMore | src/app/ui/admin/people/people.component.ts:57 | `hasMore` holds exactly when the page length equals `take` |
| Paging.Toggle | src/app/ui/admin/people/people.component.ts:67-69 | selecting sets the clicked id unless it is current, which clears the selection to 0 |
| Paging.ToggleTwice | src/app/ui/admin/workspaces/workspaces.component.ts:77-79 | selecting the same row twice from another selection clears it; from that row it restores it |
| People.PeopleComponent.constructor | src/app/ui/admin/people/people.component.ts:16-20 | the search starts with `take` 25, nothing selected and an empty list |
| People.PeopleComponent.TermChanged | src/app/ui/admin/people/people.component.ts:30-35 | a new term is stored and the list is fetched from skip 0 |
| People.PeopleComponent.Fetch | src/app/ui/admin/people/people.component.ts:46-50 | `skip` becomes 0, the list is emptied, and the first page is requested |
| People.PeopleComponent.More | src/app/ui/admin/people/people.component.ts:52-53 | the request is the current search |
| People.PeopleComponent.MoreReplied | src/app/ui/admin/people/people.component.ts:54-58 | the page is appended, `skip` moves by its length, `hasMore` iff it is full, and `skip == people.length` is preserved |
| People.PeopleComponent.FilterChanged | src/app/ui/admin/people/people.component.ts:62-65 | the filter list becomes `[value]` and the list is fetched again |
| People.PeopleComponent.Select | src/app/ui/admin/people/people.component.ts:67-69 | the selection toggles between the profile's id and 0 |
| People.PeopleComponent.OnDeleted | src/app/ui/admin/people/people.component.ts:75-77 | the first occurrence of the profile is removed; a profile not in the list removes the last row |
| Workspaces.WithLimitChanged | src/app/ui/admin/workspaces/workspaces.component.ts:94 | the template limit moves by exactly `count` and no other field changes |
| Workspaces.WorkerNames | src/app/ui/admin/workspaces/workspaces.component.ts:74 | the workers' names in list order |
| Workspaces.Workers | src/app/ui/admin/workspaces/workspaces.component.ts:73-75 | a workspace without workers shows the empty string; with workers whose names hold no comma, splitting the text at commas gives back the names in list order |
| Workspaces.WorkspacesComponent.constructor | src/app/ui/admin/workspaces/workspaces.component.ts:17-22 | the search starts with `take` 26, nothing selected and an empty list |
| Workspaces.WorkspacesComponent.TermChanged | src/app/ui/admin/workspaces/workspaces.component.ts:31-36 | a new term is stored and the list is fetched from skip 0 |
| Workspaces.WorkspacesComponent.Fetch | src/app/ui/admin/workspaces/workspaces.component.ts:52-56 | `skip` becomes 0, the list is emptied, and the first page is requested |
| Workspaces.WorkspacesComponent.More | src/app/ui/admin/workspaces/workspaces.component.ts:58-59 | the request is the current search |
| Workspaces.WorkspacesComponent.MoreReplied | src/app/ui/admin/workspaces/workspaces.component.ts:60-64 | the results are appended, `skip` moves by their length, `hasMore` iff the page is full, and `skip == topos.length` is preserved |
| Workspaces.WorkspacesComponent.FilterChanged | src/app/ui/admin/workspaces/workspaces.component.ts:68-71 | `filters` becomes `[value]` and the list is fetched again |
| Workspaces.WorkspacesComponent.Select | src/app/ui/admin/workspaces/workspaces.component.ts:77-79 | the selection toggles between the workspace's id and 0 |
| Workspaces.WorkspacesComponent.Delete | src/app/ui/admin/workspaces/workspaces.component.ts:81-82 | the delete request names the workspace's id |
| Workspaces.WorkspacesComponent.DeleteAcknowledged | src/app/ui/admin/workspaces/workspaces.component.ts:83-85 | the first occurrence is removed and the other rows keep their order; an absent workspace removes the last row |
| Workspaces.WorkspacesComponent.ChangeLimit | src/app/ui/admin/workspaces/workspaces.component.ts:93-96 | only that row's template limit moves, by `count`, and the changed workspace is queued for saving |
| DocumentEditor.CodeTheme | src/app/ui/core/document-editor/document-editor.component.ts:28 | the alternative theme maps to `vs-dark` and every other setting to `vs-light` |
| DocumentEditor.DocumentEditorComponent.constructor | src/app/ui/core/document-editor/document-editor.component.ts:23-39 | a new editor is clean, has no save interval, and its options carry the stored theme |
| DocumentEditor.DocumentEditorComponent.Init | src/app/ui/core/document-editor/document-editor.component.ts:55-57 | the route key becomes the document id that is requested |
| DocumentEditor.DocumentEditorComponent.DocumentLoaded | src/app/ui/core/document-editor/document-editor.component.ts:57-64 | the loaded text is shown; a failed load shows `# Document Title` |
| DocumentEditor.DocumentEditorComponent.ReRender | src/app/ui/core/document-editor/document-editor.component.ts:79-87 | an edit always leaves the document dirty with a save interval; an existing interval is never replaced, so one is created at most once |
| DocumentEditor.DocumentEditorComponent.Save | src/app/ui/core/document-editor/document-editor.component.ts:93-100 | an update carrying the id and the full text is sent exactly when the document is dirty |
| DocumentEditor.DocumentEditorComponent.SaveReplied | src/app/ui/core/document-editor/document-editor.component.ts:96-98 | success clears the dirty flag even if edits arrived while the update was in flight; failure leaves it for the next tick |
| DocumentEditor.DocumentEditorComponent.ThemeChanged | src/app/ui/core/document-editor/document-editor.component.ts:65-70 | the theme flag sets the code theme and only the `theme` of the editor options |
| DocumentEditor.DocumentEditorComponent.UpdateEditorOptions | src/app/ui/core/document-editor/document-editor.component.ts:128-130 | the options keep every field but `theme`, which becomes the code theme |
| DocumentEditor.DocumentEditorComponent.Destroy | src/app/ui/core/document-editor/document-editor.component.ts:76 | an existing save interval is cancelled; without one nothing happens |
| Console.StateIcon | src/app/ui/core/console/console.component.ts:104-123 | stopped, disconnected, forbidden and failed map to their icons and every other state to `''` |
| Console.IconIdentifiesState | src/app/ui/core/console/console.component.ts:104-123 | the four icons are distinct, so a non-empty icon identifies its state |
| Console.IsMockUrl | src/app/ui/core/console/console.component.ts:235 | a url selects the mock exactly when `mock` occurs in it |
| Console.ConsoleComponent.constructor | src/app/ui/core/console/console.component.ts:37-56 | a console starts `loading`, without icon, clip text, console service or data sources, with a fresh mock whose counter is 0 |
| Console.ConsoleComponent.ChangeState | src/app/ui/core/console/console.component.ts:93-124 | a `clip:` string sets the clip text to what follows the five-character prefix, copies it, and leaves state, shadow state and icon alone; any other string becomes state and shadow state with its icon |
| Console.ConsoleComponent.StateButtonClicked | src/app/ui/core/console/console.component.ts:126-136 | a stopped VM is started (`starting`); in every other state the console is reloaded (`loading`) |
| Console.ConsoleComponent.Reload | src/app/ui/core/console/console.component.ts:138-141 | shows `loading` before requesting the ticket of the console's VM |
| Console.ConsoleComponent.Start | src/app/ui/core/console/console.component.ts:181-186 | shows `starting` before asking to start the console's VM |
| Console.ConsoleComponent.StartReplied | src/app/ui/core/console/console.component.ts:187-189 | a started VM reloads the console |
| Console.ConsoleComponent.TicketReceived | src/app/ui/core/console/console.component.ts:143-177 | a request error shows `failed`; a ticket replaces the info, rebuilds both data sources exactly when its isolation id differs, picks the mock or WMKS service from the url, and then shows `failed` without a VM id, `stopped` for a VM that is not running, or connects |
| Console.ConsoleComponent.ShowTicketOutcome | src/app/ui/core/console/console.component.ts:157-169 | connecting the mock shows the state it reports at its counter and advances the counter by one; connecting WMKS leaves the state for its later reports |
| Console.ConsoleComponent.IsConnected | src/app/ui/core/console/console.component.ts:230-232 | holds exactly when the state is `connected`, a state without icon |
| Console.ConsoleComponent.IsMock | src/app/ui/core/console/console.component.ts:234-236 | holds exactly when `mock` occurs in the ticket's url |
| MockConsole.ReportedState | src/app/ui/core/console/services/mock-console.service.ts:16-24 | counter mod 3 gives forbidden for 0, failed for 1 and connected for 2 |
| MockConsole.ReportsFromFresh | src/app/ui/core/console/services/mock-console.service.ts:9 | the k-th connect of a fresh service reports the state for counter k |
| MockConsole.CycleFromFresh | src/app/ui/core/console/services/mock-console.service.ts:9-25 | a fresh service reports forbidden, failed, connected and then repeats with period 3 |
| MockConsole.MockConsoleService.constructor | src/app/ui/core/console/services/mock-console.service.ts:9-12 | the counter starts at 0 and no callback is stored |
| MockConsole.MockConsoleService.Connect | src/app/ui/core/console/services/mock-console.service.ts:14-26 | exactly one state is reported at once, the counter advances by one, and the callback is stored only when it is the `Function` constructor itself |
| MockConsole.MockConsoleService.Disconnect | src/app/ui/core/console/services/mock-console.service.ts:28-30 | reports `disconnected` through a stored callback; with none stored the call fails |
| Settings.DefaultSettings | src/app/svc/settings.service.ts:20-34 | the built-in settings hold exactly lang, maintMessage, branding, loginUrl and showdown, with lang `en` and loginUrl `/login` |
| Settings.Spread | src/app/svc/settings.service.ts:77 | an object spread keeps every key of both objects and the later object's value wins |
| Settings.Layered | src/app/svc/settings.service.ts:77-85 | the merged settings keep every earlier key, take every key of the environment file from it, and equal the earlier settings when both fetches fail |
| Settings.LoadOverrideOrder | src/app/svc/settings.service.ts:76-87 | after `load` a key takes its value from the environment file, else the settings file, else the earlier settings |
| Settings.FailedFetchesKeep | src/app/svc/settings.service.ts:71-74 | when both fetches fail the settings are kept as they were |
| Settings.EnvUrl | src/app/svc/settings.service.ts:78 | a trailing `json` in the url becomes `env.json`; other urls are unchanged |
| Settings.EnvUrlOfSettingsUrl | src/app/svc/settings.service.ts:36 | the environment file is `assets/config/settings.env.json` |
| Settings.GetLocal | src/app/svc/settings.service.ts:120-126 | stored preferences read back as stored; a missing or unparsable slot reads as the empty object |
| Settings.SettingsService.constructor | src/app/svc/settings.service.ts:44-52 | the service starts with the built-in settings, the stored preferences and no tabs |
| Settings.SettingsService.ShowTab | src/app/svc/settings.service.ts:59-65 | a tab is opened when the url has none or its tab was closed, and focused otherwise |
| Settings.SettingsService.SettingsFileReplied | src/app/svc/settings.service.ts:71-78 | the settings file's keys are spread over the settings (nothing for a failed fetch) and the environment file is requested next |
| Settings.SettingsService.EnvFileReplied | src/app/svc/settings.service.ts:80-85 | the environment file's keys are spread over the settings (nothing for a failed fetch) |
| Settings.SettingsService.StoreLocal | src/app/svc/settings.service.ts:111-118 | the storage slot holds the current preferences |
| Settings.SettingsService.UpdateTheme | src/app/svc/settings.service.ts:92-97 | the theme flag is set, the other preferences are unchanged, storage is written exactly when the flag changed, and storage keeps reading back as the preferences |
| Settings.SettingsService.UpdateLobbyFilter | src/app/svc/settings.service.ts:98-103 | the lobby filter is set, the other preferences are unchanged, and storage is written exactly when it changed |
| Settings.SettingsService.UpdateLobbySort | src/app/svc/settings.service.ts:104-109 | the lobby sort is set, the other preferences are unchanged, and storage is written exactly when it changed |
| TemplateSettings.IsoChoice | src/app/ui/core/template-settings/template-settings.component.ts:53-54 | the template takes the chosen path and is dirty exactly when the path differs from its ISO |
| TemplateSettings.SameIsoTwice | src/app/ui/core/template-settings/template-settings.component.ts:53-54 | choosing the same ISO twice in a row leaves the template clean and unchanged by the second choice |
| TemplateSettings.TemplateSettingsComponent.constructor | src/app/ui/core/template-settings/template-settings.component.ts:21-32 | the panel starts clean with the ISO list closed and an ISO source for the template's workspace |
| TemplateSettings.TemplateSettingsComponent.Update | src/app/ui/core/template-settings/template-settings.component.ts:37-39 | the form is sent only when it is valid and holds an id |
| TemplateSettings.TemplateSettingsComponent.UpdateSucceeded | src/app/ui/core/template-settings/template-settings.component.ts:40-43 | after a save the form is no longer dirty and the ISO is no longer dirty |
| TemplateSettings.TemplateSettingsComponent.NeedSaving | src/app/ui/core/template-settings/template-settings.component.ts:48-50 | false whenever the form is invalid; for a valid form, true exactly when the form or the ISO is dirty |
| TemplateSettings.TemplateSettingsComponent.IsoChanged | src/app/ui/core/template-settings/template-settings.component.ts:52-56 | applies the ISO choice and closes the ISO list |
| WorkspaceSettings.ShareUrl | src/app/ui/core/workspace-settings/workspace-settings.component.ts:66-68 | the invitation url is the host, then `/invite-gs/`, then the share code |
| WorkspaceSettings.ShareCodeReadBack | src/app/ui/core/workspace-settings/workspace-settings.component.ts:66-68 | the share code is the text after the url's last `/` when the code holds none |
| WorkspaceSettings.WorkerIndex | src/app/ui/core/workspace-settings/workspace-settings.component.ts:57 | the position of the first worker with the id, or -1 when none has it |
| WorkspaceSettings.RemoveWorker | src/app/ui/core/workspace-settings/workspace-settings.component.ts:57-60 | at most one worker is removed, none of the rest changes (as a multiset), and the list keeps its length exactly when no worker has the id |
| WorkspaceSettings.RemoveWorkerNoMatch | src/app/ui/core/workspace-settings/workspace-settings.component.ts:57-60 | with no worker of that id the workers are unchanged |
| WorkspaceSettings.RemoveWorkerFirstMatch | src/app/ui/core/workspace-settings/workspace-settings.component.ts:57-60 | exactly the first worker with that id is removed and the others keep their order |
| WorkspaceSettings.WorkspaceSettingsComponent.constructor | src/app/ui/core/workspace-settings/workspace-settings.component.ts:35-41 | the panel starts with no invite url and nothing copied |
| WorkspaceSettings.WorkspaceSettingsComponent.Update | src/app/ui/core/workspace-settings/workspace-settings.component.ts:43-45 | the form is sent only when it is valid |
| WorkspaceSettings.WorkspaceSettingsComponent.UpdateSucceeded | src/app/ui/core/workspace-settings/workspace-settings.component.ts:46-48 | after a save the form is no longer dirty |
| WorkspaceSettings.WorkspaceSettingsComponent.RemoveMember | src/app/ui/core/workspace-settings/workspace-settings.component.ts:53-54 | the delete request names the chip's worker id |
| WorkspaceSettings.WorkspaceSettingsComponent.RemoveMemberAcknowledged | src/app/ui/core/workspace-settings/workspace-settings.component.ts:56-61 | the first worker with the chip's id is removed from the workspace and nothing else changes |
| WorkspaceSettings.WorkspaceSettingsComponent.CurrentShareUrl | src/app/ui/core/workspace-settings/workspace-settings.component.ts:66-68 | the share url starts with the host and reads back the share code after its last `/` when the code holds none |
| WorkspaceSettings.WorkspaceSettingsComponent.NewInvitation | src/app/ui/core/workspace-settings/workspace-settings.component.ts:70-71 | the invitation request names the workspace's id |
| WorkspaceSettings.WorkspaceSettingsComponent.InvitationCreated | src/app/ui/core/workspace-settings/workspace-settings.component.ts:73-76 | the new share code is stored, the invite url becomes its share url, and that url is copied |
| WorkspaceSettings.WorkspaceSettingsComponent.InviteTimerFired | src/app/ui/core/workspace-settings/workspace-settings.component.ts:77 | the invite url is hidden again |
| VmQuestionView.Message | src/app/ui/shared/vm-question/vm-question.component.ts:29 | the message is the question's prompt, or `No question pending.` without a question |
| VmQuestionView.VmQuestionComponent.constructor | src/app/ui/shared/vm-question/vm-question.component.ts:14-16 | the panel starts with an empty VM and the message `status unknown` |
| VmQuestionView.VmQuestionComponent.Refresh | src/app/ui/shared/vm-question/vm-question.component.ts:24-26 | the message is cleared before the VM is requested |
| VmQuestionView.VmQuestionComponent.VmLoaded | src/app/ui/shared/vm-question/vm-question.component.ts:27-30 | the loaded VM is kept and the message follows its question |
| VmQuestionView.VmQuestionComponent.Choices | src/app/ui/shared/vm-question/vm-question.component.ts:34-39 | no choices without a question, and the question's choices otherwise |
| VmQuestionView.VmQuestionComponent.Label | src/app/ui/shared/vm-question/vm-question.component.ts:41-43 | the label is the choice's caption, followed by ` *` exactly when its key is the default choice |
| VmQuestionView.VmQuestionComponent.Answer | src/app/ui/shared/vm-question/vm-question.component.ts:45-48 | the answer names the VM, the pending question and the chosen key |
| WorkspaceCreator.ErrorMessage | src/app/ui/core/workspace-creator/workspace-creator.component.ts:40-42 | a message containing `WorkspaceLimitReachedException` becomes the fixed workspace-limit sentence; others are kept |
| WorkspaceCreator.ErrorMessageIdempotent | src/app/ui/core/workspace-creator/workspace-creator.component.ts:40-42 | rewriting a rewritten message changes nothing |
| WorkspaceCreator.WorkspaceCreatorComponent.constructor | src/app/ui/core/workspace-creator/workspace-creator.component.ts:17-19 | the form starts with empty name and description and no errors |
| WorkspaceCreator.WorkspaceCreatorComponent.Clicked | src/app/ui/core/workspace-creator/workspace-creator.component.ts:29-34 | a create request carrying name and description is sent exactly when the name is not empty |
| WorkspaceCreator.WorkspaceCreatorComponent.Created | src/app/ui/core/workspace-creator/workspace-creator.component.ts:35-38 | the new workspace is opened and the name is cleared |
| WorkspaceCreator.WorkspaceCreatorComponent.Failed | src/app/ui/core/workspace-creator/workspace-creator.component.ts:39-43 | an error body with a message appends that message, rewritten if it is the limit error, after the earlier ones; a body without a message (a network error, an empty reply) makes the handler throw, so nothing is appended |
| SpacesPipe.Transform | src/app/ui/shared/directives/spaces.pipe.ts:9 | the output starts with the input's first character |
| SpacesPipe.TransformIsSpaced | src/app/ui/shared/directives/spaces.pipe.ts:9 | the output is the input's characters in order, with one space inserted inside each lower-or-digit then upper pair and nowhere else |
| SpacesPipe.TransformLength | src/app/ui/shared/directives/spaces.pipe.ts:9 | the output is longer than the input by the number of such pairs |
| SpacesPipe.NoBoundaryUnchanged | src/app/ui/shared/directives/spaces.pipe.ts:9 | a text without such a pair, the empty text included, is returned unchanged |
| SpacesPipe.NoBoundaryCons | src/app/ui/shared/directives/spaces.pipe.ts:9 | a character that does not pair with the next keeps a pair-free text pair-free |
| SpacesPipe.TransformNoBoundary | src/app/ui/shared/directives/spaces.pipe.ts:9 | the output holds no such pair |
| SpacesPipe.Idempotent | src/app/ui/shared/directives/spaces.pipe.ts:9 | applying the pipe twice gives the same as once |
| UntaggedPipe.Transform | src/app/ui/shared/directives/untagged.directive.ts:8 | the result is a prefix of the input holding no `#`, followed in the input by `#` when shorter |
| UntaggedPipe.BeforeFirstHash | src/app/ui/shared/directives/untagged.directive.ts:8 | the result is the text before the first `#` |
| UntaggedPipe.WithoutHashUnchanged | src/app/ui/shared/directives/untagged.directive.ts:8 | an input without `#` is returned unchanged |
| UntaggedPipe.LeadingHashEmpty | src/app/ui/shared/directives/untagged.directive.ts:8 | an input starting with `#` gives the empty string |
| UntaggedPipe.Idempotent | src/app/ui/shared/directives/untagged.directive.ts:8 | applying the pipe twice gives the same as once |

## Left out

- HTTP: the API services only build requests. Each request is the value a method returns, and each reply is a parameter of the method that handles it.
- Timers and streams: the 30-second save interval's ticks, the toolbar's term and theme streams, the 500 ms debounce before a changed workspace is saved, the five-second shadow-state and invite-url timers, the 60-second delayed `disconnected` of the mock, and the console's mouse hotspot. Each tick or emission is a separate method call (`Save`, `ThemeChanged`, `InviteTimerFired`), or is left out where it only schedules display changes.
- Browser I/O: local storage is a field holding the stored value, the clipboard is the list of copied texts, and an open tab's closed state is a parameter of `ShowTab`. The reference `window.open` returns is not kept, so `ShowTab` does not model a blocked pop-up. A storage write that throws, which the service ignores, is not modelled.
- Markdown rendering with showdown, and the rendered HTML, are left out, because they are a foreign library.
- The WMKS console library is left out, and so are the console operations that only forward to it: resize refresh, copy, paste, the drawer and the token-expiry disconnect. After a WMKS connect the state is left for the library's later reports.
- `Console.ConsoleComponent.TicketReceived`: the ISO and network selection with its configuration feedback messages is not modelled.
- `DataSources.NameMatches`: the term is matched as literal text. The source passes it to `String.match` as a regular expression, so metacharacters are not modelled.
- `DataSources.SortByName`: `localeCompare` is modelled as lexicographic order of code points, with an insertion sort. The relative order of rows with equal names is not claimed.
- `DataSources.VmNetDataSource.Load` and `DataSources.IsoDataSource.Load`: a failed fetch hands the handler an empty array, and the handler throws on its missing `net` or `iso` list (datasources.ts lines 48 and 93). The model leaves every field unchanged in that case.
- Record identity: `indexOf` on the people and workspace lists compares by value here, where the source compares object references.
- `Workspaces.WorkspacesComponent.ChangeLimit`: the changed workspace is identified by its row in the list. The source mutates the record object itself.
- `WorkspaceSettings.WorkspaceSettingsComponent.RemoveMemberAcknowledged`: the workspace is a value that the component reassigns. Sharing the record with the parent view, which sees the in-place splice, is not modelled.
- Strings: a `char` is a Unicode scalar value, so lengths and positions in names and paths differ from JavaScript's UTF-16 counts when a character lies outside the Basic Multilingual Plane.
- Absent fields: optional strings are `""` (except the error message of a failed workspace creation, which is an `Option` because its absence changes what happens) and an absent `skip` is 0. A form is reduced to its validity, its dirty flag and, for templates, the `id` among its values.
- `MockConsole.MockConsoleService`: the operations that do nothing (`sendCAD`, `refresh`, `toggleScale`, `fullscreen`, `showKeyboard`, `showExtKeypad`, `showTrackpad`, `copy`, `paste`, `dispose`) are methods with empty bodies and no `modifies` clause.
- Toolbar setup, routing other than the creator's navigation, and Angular lifecycle plumbing are left out, because they hold no state of their own.
