# Open WebUI voice and deployment helpers, modelled in Dafny

This project models the deployment-side code of an Open WebUI installation. It has three parts:

- **The LiveKit voice portal and agent.**
  - The portal is a small web service. It authenticates an Open WebUI user and checks the voice settings asked for.
  - It stores the settings as JSON in a LiveKit room's metadata. When those settings have gone stale, it restarts the room's agent dispatch.
  - The agent reads the settings back and turns them into session options.
  - The agent also keeps the "context" system messages that the browser sets or clears through a control data channel. The chat context is capped at a character budget.
- **Four database maintenance scripts.** They edit the Open WebUI config row (or one user's settings) in place:
  - provider prefixes;
  - provider keys synced from the environment;
  - instance default models;
  - per-user default models.

  Each reads a JSON object and changes only what it was asked to change. The prefix and default-model scripts take `--force`; without it they never overwrite a value that is already set (truthy). The key-sync script has no such flag: it overwrites a stored key with the environment's key for that URL whenever the environment's key is non-empty and differs. Each script reports whether anything changed, and writes only when something did and the run is not a dry run.
- **A patcher.** It rewrites files of the installed frontend and backend. Each patch looks for a mark of an earlier run and reports "already" when it finds one, but two marks do not cover every case. The pane guard looks only for a guarded `resize` or `isExpanded`, so a chunk whose only pane call is `getSize` is patched once and then reported as "unpatched (no changes applied)". The call-overlay patch reports "already" only when no `requestAnimationFrame` is left, so a leftover call whose callback is not a plain identifier is reported as "unpatched (pattern not found; upstream changed?)" on every run. The four patches are:
  - a pane call guard;
  - background audio for the call overlay;
  - Cartesia text-to-speech;
  - provider timing logs.

Modules:

- Shared pieces:
  - `PyText`: the Python string operations used: `strip`, `lower`, `split`, `in`, `count`, `replace`, `str(int)`.
  - `JsonValue`, `JsonReader`, `JsonRoundTrip`: JSON values, the compact key-sorted writer, the reader, and the proof that the reader reads back what the writer wrote.
  - `PyJson`: Python truthiness, `or` and `str()` on decoded values.
  - `ConfigStore`: `_coerce_json_object`, `_ensure_dict` and the guarded write that all four scripts share.
- Portal:
  - `VoiceSettings`: `_build_voice_settings` and the metadata text.
  - `RoomService`: the LiveKit room service as a class over an abstract server state. Its calls can be made to fail.
  - `Portal`: `/token` and `/apply`.
- Agent:
  - `AgentSettings`: the agent's reading of the metadata and its coercions.
  - `ContextLedger`: `apply_context`, `clear_context` and the context budget.
  - `ControlGate`: `on_data_received` and `clip`.
- Scripts: `ProviderPrefixes`, `SyncProviderKeys`, `DefaultModels`, `UserDefaultModels`.
- Patcher: `LocalPatches`.

Every step that changes state in the source is a method on a class: the room server, the agent's context, the database row, the file being patched. Each such method is proved equal to a specification function, and the properties are proved about those functions.

## Model

| member | source | states |
|---|---|---|
| Portal.EnvError | deploy/livekit/portal.py:31-45 | The request passes the environment check exactly when the secret key, LiveKit URL, API key and API secret are all non-empty; otherwise the answer is a 500 |
| Portal.Authorize | deploy/livekit/portal.py:205-217 | Bearer check: a missing or non-`Bearer ` header is "Missing Bearer token"; the user id is the `id` claim of the trimmed token; every failure is a 401 |
| Portal.TokenRoom | deploy/livekit/portal.py:219-223 | A blank room on `/token` becomes prefix-hex; otherwise the trimmed name is accepted, as it is, exactly when it matches the room pattern and carries the prefix, and the answer is "Invalid room name" otherwise |
| Portal.ApplyRoom | deploy/livekit/portal.py:385-389 | On `/apply` the answer is "Room is required" exactly for a blank room; a non-blank room is accepted exactly when its trimmed name is valid and prefixed, and then as that trimmed name |
| Portal.BlankRoomHandling | deploy/livekit/portal.py:219-223 | A blank room is generated on `/token` but refused on `/apply` |
| Portal.TokenOutcome | deploy/livekit/portal.py:199-255 | `/token` succeeds exactly when the query ranges, environment, bearer, room and settings checks all pass; the grant carries the room, the `owui:` identity and the settings' metadata |
| Portal.ApplyChecks | deploy/livekit/portal.py:365-405 | `/apply`'s checks in order; on success the room, the new metadata and the user id |
| Portal.OtherHumans | deploy/livekit/portal.py:423-429 | The other humans are exactly the participants not named `agent-…` and not the caller's own identity |
| Portal.DeleteAll | deploy/livekit/portal.py:326-327 | Deleting dispatches one by one touches only that room's dispatch list and stops at the first failing call |
| Portal.Restart | deploy/livekit/portal.py:326-332 | A restart deletes then creates one dispatch; on success exactly one fresh id is used; metadata and participants are untouched |
| Portal.TokenSync | deploy/livekit/portal.py:273-341 | What `/token` does to the server never touches another room or the participants; all failures are only logged |
| Portal.ApplySync | deploy/livekit/portal.py:415-459 | `/apply` on the server: a missing room changes nothing; success implies the metadata was written; other rooms are untouched |
| Portal.DeleteAllRemoves | deploy/livekit/portal.py:326-327 | With no failing delete, exactly the listed dispatch ids disappear |
| Portal.AgentIdsListed | deploy/livekit/portal.py:291-294 | Every dispatch of the agent is among the ids listed for deletion |
| Portal.OthersNotListed | deploy/livekit/portal.py:291-294 | With unique ids, no dispatch of another agent is deleted |
| Portal.RestartLeavesOneDispatch | deploy/livekit/portal.py:326-332 | A successful restart leaves the agent exactly one dispatch, the new one, and keeps other agents' dispatches |
| Portal.TokenKeepsDispatches | deploy/livekit/portal.py:296-324 | `/token` leaves dispatches alone when none is stale or a non-agent is present |
| Portal.TokenRestartsStaleAgent | deploy/livekit/portal.py:280-332 | On a room with a stale or missing agent dispatch and only agents present, `/token` writes the metadata and leaves exactly one new agent dispatch |
| Portal.TokenSyncSettled | deploy/livekit/portal.py:280-310 | A room already holding the metadata with nothing stale is left as it is |
| Portal.TokenSettles | deploy/livekit/portal.py:273-341 | A second `/token` with the same settings changes nothing |
| Portal.OtherHumansAreNonAgents | deploy/livekit/portal.py:316-319 | Anyone `/apply` counts as another human is a non-agent that `/token` would also see |
| Portal.ApplyMissingRoom | deploy/livekit/portal.py:415-417 | `/apply` on a room that does not exist answers 404 and changes nothing |
| Portal.ApplyConflict | deploy/livekit/portal.py:423-434 | Without faults, `/apply` refuses with 409 exactly when another human is present and `force` is off, after writing the metadata |
| Portal.ApplyRestarts | deploy/livekit/portal.py:436-461 | Without faults or conflict, `/apply` succeeds and restarts the agent whether or not its dispatch was stale |
| Portal.NeedsRestart | deploy/livekit/portal.py:296-309 | The nested loop with its breaks computes whether some job of an agent dispatch holds other metadata, or there is no agent dispatch |
| Portal.RestartAgent | deploy/livekit/portal.py:326-332 | The delete loop and create call leave the server as the `Restart` specification says |
| Portal.TokenSyncRoom | deploy/livekit/portal.py:273-341 | The room-service part of `/token` leaves the server as `TokenSync` says |
| Portal.Token | deploy/livekit/portal.py:186-348 | `/token` answers as `TokenOutcome`; the server changes only after the checks pass, as `TokenSync` says |
| Portal.Apply | deploy/livekit/portal.py:351-461 | `/apply` answers a failed check without touching the server, and otherwise as `ApplySync` says |
| RoomService.AgentDispatches | deploy/livekit/portal.py:291-294 | Exactly the dispatches started for the agent |
| RoomService.Without | deploy/livekit/portal.py:327 | The dispatch list without the deleted id, others kept |
| RoomService.Ids | deploy/livekit/portal.py:326-327 | The ids of the dispatches, position by position |
| RoomService.SetMetadata | deploy/livekit/portal.py:282-284 | Updating metadata changes only that room's metadata |
| RoomService.Delete | deploy/livekit/portal.py:327 | Deleting a dispatch changes only that room's dispatch list |
| RoomService.Create | deploy/livekit/portal.py:328-332 | Creating adds one dispatch with no job under a fresh id at the end of the room's list |
| RoomService.RoomServer.constructor | deploy/livekit/portal.py:274-278 | The client starts on the given server state and fault set |
| RoomService.RoomServer.RoomExists | deploy/livekit/portal.py:280-281 | `list_rooms` tells whether the room exists, or raises |
| RoomService.RoomServer.UpdateMetadata | deploy/livekit/portal.py:282-284 | The update succeeds exactly for an existing room when the call does not raise, and then sets the metadata; otherwise nothing changes |
| RoomService.RoomServer.ListDispatches | deploy/livekit/portal.py:291 | The room's dispatches, or a raise |
| RoomService.RoomServer.Participants | deploy/livekit/portal.py:313-315 | The room's participant identities, or a raise |
| RoomService.RoomServer.DeleteDispatchCall | deploy/livekit/portal.py:327 | A delete that does not raise removes the dispatch; one that raises changes nothing |
| RoomService.RoomServer.CreateDispatchCall | deploy/livekit/portal.py:328-332 | A create that does not raise adds one dispatch; one that raises changes nothing |
| VoiceSettings.ToDict | deploy/livekit/portal.py:54-120 | The settings dictionary has a key exactly for each present setting, holding its value |
| VoiceSettings.ToDictEmpty | deploy/livekit/portal.py:251-255 | The dictionary is empty exactly when no setting is present, which is when the metadata is "" |
| VoiceSettings.ToDictInjective | deploy/livekit/portal.py:54-120 | Different settings give different dictionaries |
| VoiceSettings.ToDictValid | deploy/livekit/portal.py:251-255 | Every stored value is a string, bool, int or canonical float, so it is valid JSON |
| VoiceSettings.ParameterRejects | deploy/livekit/portal.py:67-108 | A parameter is rejected exactly when: a non-blank model is in neither alias set; a non-empty mode is not `ml`/`multilingual`/`stt`; a trimmed voice is longer than 256 |
| VoiceSettings.LlmModelAccepted | deploy/livekit/portal.py:67-79 | An accepted model is kept exactly when non-blank, as the canonical id of its alias set |
| VoiceSettings.TurnDetectionAccepted | deploy/livekit/portal.py:81-91 | An accepted mode is kept exactly when supplied and not empty, as `ml` or `stt` |
| VoiceSettings.TtsVoiceAccepted | deploy/livekit/portal.py:103-108 | An accepted voice is kept exactly when non-blank, trimmed and at most 256 characters |
| VoiceSettings.TtsVoiceFixed | deploy/livekit/portal.py:103-108 | A stored voice passes the check unchanged |
| VoiceSettings.BuildRejects | deploy/livekit/portal.py:54-120 | A request is rejected exactly when one of the checks fails, always with 400, including inverted endpointing delays |
| VoiceSettings.BlankTurnDetectionRejected | deploy/livekit/portal.py:81-91 | A whitespace-only turn detection is rejected, unlike a blank model or voice, which are dropped |
| VoiceSettings.BuildTextValues | deploy/livekit/portal.py:67-108 | Accepted text settings are kept exactly when supplied and not blank, in normal form |
| VoiceSettings.BuildNumericValues | deploy/livekit/portal.py:93-118 | Flags and numbers are kept as given, and kept delays are in order |
| VoiceSettings.BuildIdempotent | deploy/livekit/portal.py:54-120 | Asking again with the accepted settings gives the same settings |
| VoiceSettings.EncodeMetadata | deploy/livekit/portal.py:251-255 | The metadata is empty exactly when no setting is present |
| VoiceSettings.MetadataInjective | deploy/livekit/portal.py:251-255 | Different settings never share metadata |
| AgentSettings.ParseRoomVoiceSettings | deploy/livekit/agent.py:52-69 | Blank metadata, non-JSON, non-object JSON and an `owui_voice` that is missing or not an object give `{}`; when the JSON object's `owui_voice` is an object the result is exactly its fields |
| AgentSettings.MetadataRoundTrip | deploy/livekit/agent.py:52-69 | The agent reads back exactly the settings dictionary the portal encoded |
| AgentSettings.CoerceBool | deploy/livekit/agent.py:72-81 | Booleans as they are, and the true/false words case-insensitively after trimming; anything else is none |
| AgentSettings.CoerceFloat | deploy/livekit/agent.py:84-92 | Numbers by value, text through the float parser after trimming; anything else is none |
| AgentSettings.FloatToInt | deploy/livekit/agent.py:95-107 | An integral float gives the integer of the same value, and a non-integral one gives none |
| AgentSettings.ParseIntText | deploy/livekit/agent.py:95-107 | Python `int()` on trimmed text succeeds only on non-empty text |
| AgentSettings.IntTextRoundTrip | deploy/livekit/agent.py:95-107 | `int(str(i)) == i` |
| AgentSettings.CoerceInt | deploy/livekit/agent.py:95-107 | Ints as they are, integral floats, integer text; anything else is none |
| AgentSettings.CoerceIntText | deploy/livekit/agent.py:95-107 | Integer text, with or without blanks, coerces to its integer |
| AgentSettings.GetOr | deploy/livekit/agent.py:131-133 | `dict.get(k, default)` |
| AgentSettings.TurnMode | deploy/livekit/agent.py:131-133 | The mode is the agent's default or a non-empty setting |
| AgentSettings.Detector | deploy/livekit/agent.py:40-49 | The multilingual detector is chosen exactly for `ml`/`multilingual` when it is available; otherwise STT |
| AgentSettings.ResolvedVoice | deploy/livekit/agent.py:170 | The voice is the default or a non-empty setting |
| AgentSettings.InRange | deploy/livekit/agent.py:144-159 | A float override is kept exactly when it lies in [0, hi] |
| AgentSettings.WordsInRange | deploy/livekit/agent.py:144-159 | A word count is kept exactly when it lies in [0, 50] |
| AgentSettings.Ordered | deploy/livekit/agent.py:161-166 | The two delays are swapped when inverted: same presence, same values, in order |
| AgentSettings.SessionOptionsInRange | deploy/livekit/agent.py:129-166 | Every numeric session override lies in its range and kept delays are in order |
| AgentSettings.BuildSessionOptions | deploy/livekit/agent.py:129-166 | The step-by-step keyword-argument building equals the session-options specification |
| AgentSettings.DictOptions | deploy/livekit/agent.py:135-166 | Options read from a portal-written dictionary are its values, field by field |
| AgentSettings.AgentKeepsNumbers | deploy/livekit/agent.py:129-166 | The numeric settings the portal accepted reach the agent's session unchanged |
| AgentSettings.DictTurnMode | deploy/livekit/agent.py:131-133 | A stored mode is used as it is; an absent one falls back to the default |
| AgentSettings.StoredVoice | deploy/livekit/agent.py:170 | A trimmed non-blank voice is used as it is; an absent one falls back |
| AgentSettings.DictVoice | deploy/livekit/agent.py:170 | A stored voice is used as it is; an absent one falls back |
| AgentSettings.AgentKeepsTexts | deploy/livekit/agent.py:129-170 | The mode and voice the portal stored are those the agent uses |
| ContextLedger.LastContextIndex | deploy/livekit/agent.py:238-249 | The position of the last tagged item, or none when no item is tagged |
| ContextLedger.NormalMode | deploy/livekit/agent.py:272-273 | `replace` and `append` are kept as they are; anything else becomes `replace` |
| ContextLedger.Cut | deploy/livekit/agent.py:310-330 | The text cut to the room left is a prefix of exactly that length when it is too long, and the whole text otherwise |
| ContextLedger.AppendTarget | deploy/livekit/agent.py:332-348 | There is an append target exactly in append mode when the last tagged item holds a list of parts, and it is that item |
| ContextLedger.ClearOutcome | deploy/livekit/agent.py:399-423 | `context_cleared` is published whatever happens |
| ContextLedger.NoContextFixed | deploy/livekit/agent.py:229-270 | Without tagged items, nothing is dropped and no tagged characters count |
| ContextLedger.UntaggedIdempotent | deploy/livekit/agent.py:290-294 | Dropping tagged items twice is dropping them once |
| ContextLedger.UntaggedMembers | deploy/livekit/agent.py:290-294 | The untagged items are exactly the items without the tag |
| ContextLedger.ApplyKeepsUntagged | deploy/livekit/agent.py:225-397 | Setting context never touches an untagged item: they stay, in order |
| ContextLedger.ApplyEvents | deploy/livekit/agent.py:275-397 | An error leaves the context as it was; blank text clears; the text is set exactly when the copy works, the text is not blank, the budget is not used up, adding does not fail where a new message is needed, and the update works, and then the context is the working copy with the text placed |
| ContextLedger.ApplyWellFormed | deploy/livekit/agent.py:225-397 | Setting context keeps at most one tagged item, each holding a list of parts |
| ContextLedger.BlankTextClears | deploy/livekit/agent.py:296-308 | Blank text in replace mode drops the tagged items unless the update fails, in append mode changes nothing, and publishes `context_cleared` |
| ContextLedger.BudgetBound | deploy/livekit/agent.py:310-397 | Under a budget, the total stays at most budget plus one message prefix, an append stays within it, and truncation happens exactly when the text exceeds the room |
| ContextLedger.BudgetOvershoot | deploy/livekit/agent.py:310-367 | The bound is reached: a full-budget text into an empty context ends one prefix over |
| ContextLedger.ClearSettles | deploy/livekit/agent.py:399-423 | Clearing keeps untagged items, leaves no tagged one without faults, and a second clear changes nothing |
| ContextLedger.ContextTotalChars | deploy/livekit/agent.py:251-270 | The nested loop counts exactly the characters of tagged items |
| ContextLedger.FindLastContext | deploy/livekit/agent.py:238-249 | The backwards scan finds the last tagged item |
| ContextLedger.Budget | deploy/livekit/agent.py:310-330 | The budget step reports full, or the cut text and whether it truncated |
| ContextLedger.FindAppendTarget | deploy/livekit/agent.py:332-340 | The append target is found as specified |
| ContextLedger.AgentContext.constructor | deploy/livekit/agent.py:225-227 | The agent starts with the given context and no events |
| ContextLedger.AgentContext.ApplyContext | deploy/livekit/agent.py:225-397 | `apply_context` leaves the context and the event log as the specification says |
| ContextLedger.AgentContext.ClearContext | deploy/livekit/agent.py:399-423 | `clear_context` leaves the context and the event log as the specification says |
| ControlGate.RequestId | deploy/livekit/agent.py:470-471 | The request id is the trimmed `str()` of the field, absent exactly when that is empty |
| ControlGate.CommandNormalised | deploy/livekit/agent.py:467-499 | Ops are recognised trimmed and case-insensitively; a set carries the text as given and the trimmed, lower-cased mode; an unknown op gives "Unknown control op: " and the op, or "(empty)"; every command carries the request id |
| ControlGate.BlankIgnored | deploy/livekit/agent.py:426-437 | No control topic or a blank payload means nothing happens |
| ControlGate.WrongTopicNotActed | deploy/livekit/agent.py:440-446 | A packet on another topic is never acted on; it is logged exactly when it mentions the control type |
| ControlGate.SenderGate | deploy/livekit/agent.py:448-453 | A packet is dropped for its sender exactly when the identity is non-empty and not `owui:…` |
| ControlGate.CommandsAreAdmitted | deploy/livekit/agent.py:425-499 | A command is only acted on for a JSON object of the control type, on the control topic, from an admitted sender |
| ControlGate.InvalidJsonGate | deploy/livekit/agent.py:455-465 | Invalid JSON is reported exactly when every earlier gate passed |
| ControlGate.SentCommandDispatched | deploy/livekit/agent.py:425-499 | An object the browser serialises and sends from its `owui:` identity is dispatched on its own fields |
| ControlGate.OnDataReceived | deploy/livekit/agent.py:425-499 | The handler runs exactly the classified action on the agent's context |
| ControlGate.Clip | deploy/livekit/agent.py:636-639 | A short value is kept; a long one is cut to `maxLen` characters plus an ellipsis |
| ControlGate.ClipIdempotent | deploy/livekit/agent.py:636-639 | Clipping twice is clipping once |
| ConfigStore.EnsureDict | deploy/ensure_default_models.py:23-29 | The key holds an object afterwards: the one already there, or a fresh `{}`; nothing else changes |
| ConfigStore.StoreAfterEnsure | deploy/ensure_default_models.py:23-29 | Storing into the parent after `_ensure_dict` equals storing into the original parent |
| ConfigStore.EnsureDictStore | deploy/ensure_openai_provider_prefixes.py:30-41 | `_ensure_dict` stores the existing object or `{}` under the key |
| ConfigStore.CoerceJsonObject | deploy/ensure_user_default_models.py:14-23 | An object column as it is, text that decodes to an object, NULL as `{}` only for user settings; anything else raises |
| ConfigStore.CoerceStoredText | deploy/ensure_default_models.py:13-20 | An object stored as its JSON text reads back as that object |
| ConfigStore.Strs | deploy/ensure_user_default_models.py:56 | A list of strings as JSON, item by item |
| ConfigStore.SetIfUnsetSettles | deploy/ensure_default_models.py:44-48 | After the guarded write the same write does nothing |
| ConfigStore.SetIfUnsetRespects | deploy/ensure_default_models.py:44-48 | Without force a truthy value is never replaced, and a falsy one different from the value always is |
| ConfigStore.Row.constructor | deploy/ensure_default_models.py:127-141 | A row holding the given column |
| ConfigStore.Doc.constructor | deploy/ensure_default_models.py:141 | A decoded document holding the given object |
| DefaultModels.SetUiDefault | deploy/ensure_default_models.py:42-56 | One `ui` step edits the config as specified |
| DefaultModels.SetTaskExternal | deploy/ensure_default_models.py:58-65 | The `task.model.external` step edits the config as specified |
| DefaultModels.EnsureDefaults | deploy/ensure_default_models.py:32-67 | `_ensure_defaults` edits the config and reports `changed` as specified |
| DefaultModels.RunDefaults | deploy/ensure_default_models.py:114-164 | Nothing requested, no row, a bad column, already set or updated; the row is written only when updated and not a dry run |
| DefaultModels.UiStepReads | deploy/ensure_default_models.py:42-56 | A `ui` step sets its own key as guarded and leaves the other targets alone |
| DefaultModels.TaskStepReads | deploy/ensure_default_models.py:58-65 | The task step sets `task.model.external` as guarded and leaves `ui` alone |
| DefaultModels.DefaultsTargets | deploy/ensure_default_models.py:32-67 | Each target ends with the requested value exactly when asked for and forced, or falsy and different |
| DefaultModels.DefaultsChanged | deploy/ensure_default_models.py:32-67 | `changed` is true exactly when some guarded write fired |
| DefaultModels.AfterSettles | deploy/ensure_default_models.py:44-48 | A value the write leaves or sets will not be written again |
| DefaultModels.DefaultsIdempotent | deploy/ensure_default_models.py:32-67 | A second identical run reports no change |
| DefaultModels.NothingRequestedKeeps | deploy/ensure_default_models.py:32-67 | With nothing requested the config is unchanged |
| DefaultModels.DefaultsFrame | deploy/ensure_default_models.py:32-67 | Only `ui` and `task` can change, and a requested parent becomes an object |
| DefaultModels.DefaultsUiFrame | deploy/ensure_default_models.py:42-56 | Inside `ui` only `default_models` and `default_pinned_models` can change |
| DefaultModels.DefaultsTaskFrame | deploy/ensure_default_models.py:58-65 | Inside `task` only `model` can change, and inside `task.model` only `external` |
| UserDefaultModels.ParseCsv | deploy/ensure_user_default_models.py:35-39 | No argument gives none; otherwise a list |
| UserDefaultModels.ParseCsvPieces | deploy/ensure_user_default_models.py:35-39 | Each parsed id is non-empty, trimmed and without commas |
| UserDefaultModels.ParseCsvJoin | deploy/ensure_user_default_models.py:35-39 | Ids joined with commas parse back to themselves |
| UserDefaultModels.EnsureUserDefaults | deploy/ensure_user_default_models.py:42-66 | `_ensure_user_defaults` edits the settings and reports `changed` as specified |
| UserDefaultModels.RunUserDefaults | deploy/ensure_user_default_models.py:113-154 | Nothing requested, no user, bad column, already set or updated; NULL settings read as `{}`; written only when updated and not a dry run |
| UserDefaultModels.UserTargets | deploy/ensure_user_default_models.py:52-64 | Each target ends with the requested list exactly when asked for and forced, or falsy and different |
| UserDefaultModels.UserChanged | deploy/ensure_user_default_models.py:42-66 | `changed` is true exactly when a guarded write fired |
| UserDefaultModels.UserIdempotent | deploy/ensure_user_default_models.py:42-66 | A second identical run reports no change |
| UserDefaultModels.UserFrame | deploy/ensure_user_default_models.py:42-66 | Only `ui.models` and `ui.pinnedModels` can change |
| ProviderPrefixes.FirstIndex | deploy/ensure_openai_provider_prefixes.py:62 | `list.index`: the first position of the value |
| ProviderPrefixes.KeysFor | deploy/ensure_openai_provider_prefixes.py:60-63 | A URL is written under its first list position, when listed, then under the URL itself |
| ProviderPrefixes.ApplyKeys | deploy/ensure_openai_provider_prefixes.py:65-79 | The loop over one URL's keys performs its writes in order |
| ProviderPrefixes.ApplyMappings | deploy/ensure_openai_provider_prefixes.py:59-79 | The loop over the sorted mapping performs every attempt in order |
| ProviderPrefixes.EnsureOpenAIPrefixes | deploy/ensure_openai_provider_prefixes.py:44-81 | `_ensure_openai_prefixes` edits the config as specified |
| ProviderPrefixes.RebuildFrame | deploy/ensure_openai_provider_prefixes.py:52-57 | Only `openai.api_configs` is rebuilt; the base URLs stay |
| ProviderPrefixes.ApplyAllAppend | deploy/ensure_openai_provider_prefixes.py:59-79 | Writes in two parts are the second part run after the first |
| ProviderPrefixes.PrefixesFrame | deploy/ensure_openai_provider_prefixes.py:44-81 | Nothing outside `openai.api_configs` changes, apart from creating missing parents |
| ProviderPrefixes.AttemptsCoverUrl | deploy/ensure_openai_provider_prefixes.py:59-63 | Every mapped URL is attempted under the URL itself |
| ProviderPrefixes.AttemptsCoverIndex | deploy/ensure_openai_provider_prefixes.py:61-62 | A listed URL is also attempted under its first position |
| ProviderPrefixes.SettledKeepsAll | deploy/ensure_openai_provider_prefixes.py:70-75 | Settled writes change nothing and report no change |
| ProviderPrefixes.TruthyPrefixKept | deploy/ensure_openai_provider_prefixes.py:66-79 | Without force, an entry whose `prefix_id` is truthy is left exactly as it was by every attempted write |
| ProviderPrefixes.FirstPrefixWins | deploy/ensure_openai_provider_prefixes.py:66-79 | Without force, a falsy `prefix_id` ends as the prefix of the first attempted write with a non-empty prefix |
| ProviderPrefixes.PrefixesKeepExisting | deploy/ensure_openai_provider_prefixes.py:66-79 | Without force, `_ensure_openai_prefixes` keeps every config entry whose `prefix_id` is already truthy |
| ProviderPrefixes.ApplyAllSettles | deploy/ensure_openai_provider_prefixes.py:65-79 | Without force every attempted write is settled when the run ends |
| ProviderPrefixes.PrefixesIdempotent | deploy/ensure_openai_provider_prefixes.py:44-81 | Without force, a second run returns false and changes nothing |
| ProviderPrefixes.ForceLastWins | deploy/ensure_openai_provider_prefixes.py:74-79 | With force the last write to a key decides its prefix |
| ProviderPrefixes.UnchangedWhenFalse | deploy/ensure_openai_provider_prefixes.py:44-81 | A false `changed` means the config is exactly as it was |
| ProviderPrefixes.ParseMapArg | deploy/ensure_openai_provider_prefixes.py:124-131 | A `--map` value needs `=`; both trimmed sides must be non-empty |
| ProviderPrefixes.MapArgRoundTrip | deploy/ensure_openai_provider_prefixes.py:124-132 | `URL=PREFIX` without surrounding blanks and no `=` in the URL reads back as the pair |
| ProviderPrefixes.ParseAllPairs | deploy/ensure_openai_provider_prefixes.py:124-132 | A successful parse holds every value's pair, in order |
| ProviderPrefixes.ParseAllStops | deploy/ensure_openai_provider_prefixes.py:124-131 | The first bad `--map` value decides the error |
| ProviderPrefixes.Overlay | deploy/ensure_openai_provider_prefixes.py:123-132 | The mapping's URLs are the defaults' and the `--map` URLs |
| ProviderPrefixes.OverlayLastWins | deploy/ensure_openai_provider_prefixes.py:132 | A URL maps to the prefix of its last `--map` |
| ProviderPrefixes.OverlayKeepsDefault | deploy/ensure_openai_provider_prefixes.py:13-17 | A URL no `--map` names keeps its default |
| ProviderPrefixes.ParseMappings | deploy/ensure_openai_provider_prefixes.py:123-132 | The parsing loop computes the overlay or the first error |
| ProviderPrefixes.RunPrefixes | deploy/ensure_openai_provider_prefixes.py:123-172 | Bad `--map` stops first; then no row, bad column, already set or updated; written only when updated and not dry |
| SyncProviderKeys.NormalizeBaseUrl | deploy/sync_openai_provider_keys_from_env.py:24-25 | The result does not start with a blank or end with `/` |
| SyncProviderKeys.NormalizeStable | deploy/sync_openai_provider_keys_from_env.py:24-25 | A normalised URL not ending in a blank is a fixed point |
| SyncProviderKeys.NormalizeNotIdempotent | deploy/sync_openai_provider_keys_from_env.py:24-25 | Normalising is not idempotent: `"x /"` gives `"x "`, which gives `"x"` |
| SyncProviderKeys.ParseSemicolonPieces | deploy/sync_openai_provider_keys_from_env.py:28-31 | Each piece is non-empty, trimmed and without `;` |
| SyncProviderKeys.ParseSemicolonJoin | deploy/sync_openai_provider_keys_from_env.py:28-31 | Pieces joined with `;` parse back to themselves |
| SyncProviderKeys.PadKeys | deploy/sync_openai_provider_keys_from_env.py:85-86 | Keys padded with `""` to the URL count, the original keys first |
| SyncProviderKeys.EnvUrls | deploy/sync_openai_provider_keys_from_env.py:83 | Each env URL normalised, position by position |
| SyncProviderKeys.PairEnv | deploy/sync_openai_provider_keys_from_env.py:88-91 | The pairing loop computes the env map |
| SyncProviderKeys.EnvMapFrom | deploy/sync_openai_provider_keys_from_env.py:88-91 | Every entry pairs a non-empty URL and key from the same position |
| SyncProviderKeys.EnvMapLastWins | deploy/sync_openai_provider_keys_from_env.py:88-91 | A later duplicate URL wins |
| SyncProviderKeys.DbUrls | deploy/sync_openai_provider_keys_from_env.py:126 | The stored URLs, each normalised |
| SyncProviderKeys.DbKeys | deploy/sync_openai_provider_keys_from_env.py:127 | `str()` of each stored key for a list, and none otherwise |
| SyncProviderKeys.Align | deploy/sync_openai_provider_keys_from_env.py:129-132 | One key per URL: padded with `""` or cut |
| SyncProviderKeys.UpdateKeys | deploy/sync_openai_provider_keys_from_env.py:137-148 | The update loop computes the updated keys; `changed` iff they differ |
| SyncProviderKeys.AppendMissing | deploy/sync_openai_provider_keys_from_env.py:150-157 | The append loop adds the sorted env items whose URL is absent; `changed` iff any |
| SyncProviderKeys.MissingItemsExact | deploy/sync_openai_provider_keys_from_env.py:150-157 | The missing items are exactly those whose URL is absent |
| SyncProviderKeys.MergeAligned | deploy/sync_openai_provider_keys_from_env.py:137-157 | The merged lists stay the same length |
| SyncProviderKeys.MergeKeepsUrls | deploy/sync_openai_provider_keys_from_env.py:137-157 | Stored URLs keep their positions; without append nothing is added |
| SyncProviderKeys.MergeSynced | deploy/sync_openai_provider_keys_from_env.py:137-148 | Every listed URL the env names holds the env key; others keep theirs |
| SyncProviderKeys.MergeCovers | deploy/sync_openai_provider_keys_from_env.py:150-157 | With append, every env URL ends up listed |
| SyncProviderKeys.MergeChanged | deploy/sync_openai_provider_keys_from_env.py:137-161 | `changed` is true exactly when the lists differ |
| SyncProviderKeys.MergeSettles | deploy/sync_openai_provider_keys_from_env.py:137-157 | Merging again against the same env changes nothing |
| SyncProviderKeys.MergeLists | deploy/sync_openai_provider_keys_from_env.py:137-157 | The two loops compute the merge |
| SyncProviderKeys.SyncDecoded | deploy/sync_openai_provider_keys_from_env.py:118-164 | The edit on the decoded config: not a string list, already synced, or updated lists |
| SyncProviderKeys.SyncKeysFromEnv | deploy/sync_openai_provider_keys_from_env.py:83-176 | `main`'s steps in order; the row is written only when changed and not a dry run |
| SyncProviderKeys.SyncFrame | deploy/sync_openai_provider_keys_from_env.py:118-164 | Only `openai.api_base_urls` and `openai.api_keys` change |
| SyncProviderKeys.SyncIdempotent | deploy/sync_openai_provider_keys_from_env.py:118-164 | A second run against the same env finds nothing to do, when the written URLs are normalisation fixed points |
| SyncProviderKeys.ReadBack | deploy/sync_openai_provider_keys_from_env.py:119-132 | Written lists of normalised URLs with one key each read back as themselves |
| LocalPatches.Suffix | deploy/apply_local_patches.py:24 | `s[-k:]`: the last `min(k, len)` items |
| LocalPatches.ContainsWindow | deploy/apply_local_patches.py:23-31 | A needle occurs in what was read plus a chunk iff it occurs in what was read or in the overlap window plus the chunk |
| LocalPatches.SuffixWindow | deploy/apply_local_patches.py:24-31 | The window kept after a chunk is the tail of everything read so far |
| LocalPatches.ContainsBytes | deploy/apply_local_patches.py:17-33 | The chunked search finds the needle iff it is empty or it occurs in the file (nothing is read with chunk size 0) |
| LocalPatches.Report | deploy/apply_local_patches.py:99-113 | `applied` iff the verdict is a patch; the message is exactly "already", "unpatched (reason)", or "would patch"/"patched" followed by " (detail)" when there is a detail |
| LocalPatches.TextFile.constructor | deploy/apply_local_patches.py:97 | A file holding the given text |
| LocalPatches.Commit | deploy/apply_local_patches.py:109-113 | The file is written with the patched text exactly for a patch outside a dry run |
| LocalPatches.PaneGrowth | deploy/apply_local_patches.py:136-143 | The patched text grows by exactly the number of calls rewritten |
| LocalPatches.PanePatchesIff | deploy/apply_local_patches.py:133-146 | With the binding found and no guard yet, the chunk is patched exactly when one of the three calls occurs |
| LocalPatches.PaneResizeGuarded | deploy/apply_local_patches.py:133-143 | Rewriting a `resize` call leaves the guard the next run looks for |
| LocalPatches.GetSizeOnlyPatched | deploy/apply_local_patches.py:130-146 | A chunk whose only pane call is `getSize` is patched, and the call is guarded |
| LocalPatches.GetSizeOnlyRerun | deploy/apply_local_patches.py:130-146 | The guard misses that chunk on the next run: the verdict is "no changes applied", not "already" |
| LocalPatches.PatchChatControls | deploy/apply_local_patches.py:116-158 | The pane patcher reports and writes as its verdict says |
| LocalPatches.PatchCallOverlay | deploy/apply_local_patches.py:89-113 | The call-overlay patcher: "already" without `requestAnimationFrame`, otherwise it reports and writes as the verdict says |
| LocalPatches.GuardedEditSettles | deploy/apply_local_patches.py:305-373 | A guarded edit whose replacement carries its own mark is done once |
| LocalPatches.HelpersInsertSettles | deploy/apply_local_patches.py:238-242 | The helper insertion is such an edit |
| LocalPatches.PatchAudioCartesia | deploy/apply_local_patches.py:161-423 | The audio patcher reports and writes as its verdict says |
| LocalPatches.ApplyEdits | deploy/apply_local_patches.py:447-606 | A failure carries the reason of one of the edits |
| LocalPatches.ApplyEditsOk | deploy/apply_local_patches.py:447-606 | The edits succeed exactly when every anchor is present in its turn, and then give the edits run in order |
| LocalPatches.ApplyEditsMissing | deploy/apply_local_patches.py:447-606 | The first missing anchor stops the edits with its own reason |
| LocalPatches.TimingOutcome | deploy/apply_local_patches.py:435-609 | Past the marker and import steps, the verdict is the edits in order, or "unpatched" with the first missing anchor's reason |
| LocalPatches.PatchProviderTiming | deploy/apply_local_patches.py:426-615 | The marker gives "already"; otherwise it reports and writes as the verdict says |
| PyText.Strip | deploy/livekit/portal.py:208 | `strip()` leaves no blank at either end |
| PyText.StripIdempotent | deploy/livekit/portal.py:219 | Stripping twice is stripping once |
| PyText.Lower | deploy/livekit/agent.py:131-133 | `lower()` keeps the length, character by character |
| PyText.Split | deploy/sync_openai_provider_keys_from_env.py:30 | `split` gives at least one piece, no piece holds the separator, and the pieces joined back are the text |
| PyText.SplitJoin | deploy/sync_openai_provider_keys_from_env.py:28-31 | Splitting joined pieces without the separator gives them back |
| PyText.PiecesShape | deploy/ensure_user_default_models.py:38-39 | Each kept piece is non-empty, trimmed and separator-free |
| PyText.PiecesJoin | deploy/ensure_user_default_models.py:38-39 | Pieces joined with the separator read back as themselves |
| PyText.SplitOnce | deploy/ensure_openai_provider_prefixes.py:127 | `split(sep, 1)` gives none exactly when the separator is absent, and otherwise the text before the first separator and the rest after it |
| PyText.Contains | deploy/apply_local_patches.py:99 | `n in s` holds exactly when `n` occurs at some position |
| PyText.ReplaceLength | deploy/apply_local_patches.py:140-143 | Replacing changes the length by the count times the length difference |
| PyText.ReplaceNoOccurrence | deploy/apply_local_patches.py:140-143 | With no occurrence, `replace` leaves the text alone |
| PyText.ReplaceIntroduces | deploy/apply_local_patches.py:140-143 | Where the pattern occurs, the replacement is present afterwards |
| PyText.ReplaceFirst | deploy/apply_local_patches.py:468 | `replace(a, b, 1)` leaves text without `a` alone, and otherwise changes the length by `len(b) - len(a)` and contains `b` |
| PyText.CountZeroIff | deploy/apply_local_patches.py:136-138 | `count` is 0 exactly when the pattern does not occur |
| PyText.DigitsRoundTrip | deploy/ensure_openai_provider_prefixes.py:62 | Reading back the digits of `n` gives `n` |
| PyJson.PyStr | deploy/livekit/agent.py:470-471 | `str()` of a string, None or bool, as Python writes it |
| PyJson.OrElse | deploy/sync_openai_provider_keys_from_env.py:119-120 | `value or default`: a falsy value gives way to the default |
| JsonValue.PyGet | deploy/ensure_default_models.py:44 | `dict.get(k)`: a missing key reads as None |
| JsonValue.SortedKeys | deploy/livekit/portal.py:252 | `sort_keys`: every key once, strictly increasing |
| JsonRoundTrip.LoadsSerialize | deploy/livekit/agent.py:52-69 | `json.loads(json.dumps(v)) == v`: the agent reads back the value the portal wrote |

## Left out

- The JWT check is a parameter. It maps a token to the claims it decodes to, or to none.
- `uuid.uuid4().hex` for generated room names is a parameter.
- The LiveKit server is an abstract state of rooms with metadata, dispatches (each with the metadata of its jobs) and participants. Which calls raise is a fault set given up front. The access-token grant itself is not modelled.
- Timing, networking, `asyncio` tasks, locks and the closing of clients are not modelled. The agent's context lock is assumed held for each whole operation.
- `str()` of a decoded list or dict (Python's own `repr`) is a parameter, `containerStr`.
- Lower-casing is ASCII-only. Full Unicode case folding is not modelled.
- Floats are decimals. Python's `float()` on text is a parameter, so precision, `inf`, `nan` and `-0.0` are not modelled.
- `int()` on text accepts an optional sign and decimal digits. Underscores and non-ASCII digits are not modelled.
- FastAPI's `ge`/`le` range checks on query parameters happen before the handlers run. The model states them as the `QueryInRange` precondition where lemmas need them.
- JSON reading follows the RFC 8259 grammar, except for unpaired surrogate escapes. Python's `NaN`/`Infinity` extensions and the UTF-8 decoding with `errors="replace"` are not modelled.
- JsonReader.Unescape: unpaired surrogate escapes are rejected as invalid JSON, although Python's `json.loads` accepts them (RFC 8259 section 8.2 allows them too). This covers a lone high surrogate (`\ud800`), a lone low surrogate (`\udc00`), and a high surrogate followed by a `\u` escape that is not a low surrogate. Model strings hold Unicode scalar values only, and Dafny's `char` cannot hold a lone surrogate. So a control packet or room metadata carrying such an escape is read as invalid JSON (the invalid-JSON error, or `{}` settings), where the agent would accept it.
- The agent session itself is not modelled: LLM, TTS, STT, the voice pipeline, and the multilingual model's import failure (given as the `mlAvailable` flag).
- `agent.py` reads `llm_model` without using it, so the model does not carry it past the portal.
- `add_message` is modelled as a new tagged system message with a fresh id. The chat context's own copy-on-write and aliasing are modelled as whole-sequence replacement.
- Debug events published on the data channel are modelled as an event log. Their JSON framing and the `publish_data` transport are not modelled.
- The agent's event handlers for state changes, transcriptions and tool calls only log and publish, so they are not modelled; `clip`, which they use, is.
- The database access is not modelled. That covers:
  - SQL;
  - `argparse`;
  - the `DATABASE_URL` checks;
  - the newest-row query (the row is a parameter);
  - `updated_at`;
  - transactions.
- The provider-key script's log lines and `_sha8` digests are not modelled, nor the `updated` list that only feeds them.
- `migrate_sqlite_to_postgres.py` is not part of this model.
- Regular-expression substitutions in the patcher are parameters, each returning its new text and the number of replacements. These cover the call-overlay rewrite, the pane binding search, the voice listing block and the `import json` anchor.
- The audio patch's anchors and replacement texts are a parameter (`AudioEdits`); only the marks its guards look for are fixed in the model. The timing patch's short anchors and its failure reasons are fixed, while its long anchors and replacement bodies are a parameter (`TimingBodies`, turned into the `Edit` list by `TimingEdits`).
- The patcher's file discovery is not modelled (`_find_frontend_root`, `_find_open_webui_package_dir`, `_find_js_chunks_for_source`), nor `main`'s loop over the chunk files and its printing. `main` always returns 0.
- The `_turn_detection` fallback when the multilingual model cannot be imported is the `mlAvailable` flag.
- SyncProviderKeys.SyncIdempotent: the lemma needs every written URL to be a fixed point of `_normalize_base_url`, because that function is not idempotent (`NormalizeNotIdempotent` shows an input).
- LocalPatches.PatchChatControls: a second run reports "already" only for a chunk that had a `resize` call (`PaneResizeGuarded`) or an `isExpanded` call. A chunk with only `getSize` calls is reported as "unpatched (no changes applied)" on the second run (`GetSizeOnlyRerun`), so no idempotence is claimed for it.
- LocalPatches.PatchAudioCartesia: re-running is proved idempotent only edit by edit (`GuardedEditSettles`), not for the whole audio patch.
