# Farm backend mock, modelled in Dafny

This project models the in-memory backend mock of the vue-vben-admin farm
management app, together with one front-end helper. The model covers:

- the three module-level stores (`fieldList`, `equipmentList`,
  `activityList`) with their seed generators and the functions that read and
  change them;
- the create and delete handlers that guard a request body and then call a
  store, the user-creation handler that appends to `MOCK_USERS`, and the alert
  creation handler;
- the list queries (alerts, activities, users, normal users): filter chains,
  the alert page window and the activity sort;
- the statistics handlers for activities and equipment, which fill counting
  tables in loops;
- the pure classifiers of the operation-log middleware;
- `getMenuIds`, the pre-order flattening of a menu forest;
- `formatRelativeTime`, the relative-time label cascade of the web app.

Stores are classes whose `seq` field is reassigned by their methods. Each
method states its entire new state.

Pure code is modelled as functions, and its properties are proved as lemmas.
These include:

- membership lemmas for every filter chain (both directions);
- subsequence lemmas (filtering keeps order);
- a permutation and sortedness proof for the activity sort;
- partition and sum lemmas for the counting tables;
- a read-back lemma for the generated decimal ids.

Values from outside are parameters. These are the generated uuids, the
current time, the faker draws, the request headers and the JWT payload.
The JavaScript built-ins the code relies on are spelt out in the `Strings`
and `Seqs` modules:

- `String(n)` and `padStart`;
- `includes`, `startsWith` and `toLowerCase`/`toUpperCase`;
- `localeCompare`;
- `Number`;
- `filter`, `findIndex`, `find` and `splice(i, 1)`.

The reply of a handler is `Reply<T>`, with three cases:

- `Ok(data)` for `useResponseSuccess`;
- `Error(code, message)` for the `{ code, data: null, message }` envelopes;
- `Rejected(message)` for `useResponseError`.

Source paths in the table below start at the repository's top directory, `vue-vben-admin/`.

## Model

| member | source | states |
|---|---|---|
| FieldData.NewFieldId | vue-vben-admin/apps/backend-mock/utils/field-data.ts:185 | the id `addField` gives is a digit string without a leading zero that reads back as the old list length + 1 |
| FieldData.NewSectionId | vue-vben-admin/apps/backend-mock/utils/field-data.ts:225 | a section id is the parent field id followed by (old section count + 1) padded to at least two digits: the suffix reads back as that count and has a leading zero only when it is exactly two digits long |
| FieldData.NewFieldIdSpelling | vue-vben-admin/apps/backend-mock/utils/field-data.ts:185 | any id meeting the contract of NewFieldId is that id, so the contract fixes `String(length + 1)` exactly |
| FieldData.NewSectionIdSpelling | vue-vben-admin/apps/backend-mock/utils/field-data.ts:225 | any id meeting the contract of NewSectionId is that id, so the contract fixes the padded suffix exactly |
| FieldData.NewFieldIdFresh | vue-vben-admin/apps/backend-mock/utils/field-data.ts:182-192 | while ids are positional (only seeding and `addField`), the new id matches no existing field and the list stays positional |
| FieldData.FieldIdRepeatsAfterDelete | vue-vben-admin/apps/backend-mock/utils/field-data.ts:185 | after deleting any field but the last from a positional list, the next length-derived id equals the id of the last field, which is still in the list |
| FieldData.FieldStore.constructor | vue-vben-admin/apps/backend-mock/utils/field-data.ts:2 | the store starts with the given `fieldList` |
| FieldData.FieldStore.GetFieldById | vue-vben-admin/apps/backend-mock/utils/field-data.ts:171-173 | no result exactly when no field has the id; otherwise the first field with the id |
| FieldData.FieldStore.GetFieldSections | vue-vben-admin/apps/backend-mock/utils/field-data.ts:176-179 | the sections of the first field with the id, and [] for an unknown id |
| FieldData.FieldStore.AddField | vue-vben-admin/apps/backend-mock/utils/field-data.ts:182-192 | appends exactly one field at the end with the length-derived id, empty sections and fresh timestamps; earlier fields unchanged |
| FieldData.FieldStore.UpdateField | vue-vben-admin/apps/backend-mock/utils/field-data.ts:195-207 | unknown id: no result and no change; otherwise that entry is replaced by the input with a new updateTime and its old sections, nothing else changes |
| FieldData.FieldStore.DeleteField | vue-vben-admin/apps/backend-mock/utils/field-data.ts:210-217 | returns true exactly when a field has the id, and then removes exactly the first such field; otherwise the list is unchanged |
| FieldData.FieldStore.AddFieldSection | vue-vben-admin/apps/backend-mock/utils/field-data.ts:220-233 | missing parent: no result and no change; otherwise the new section is appended to that field only, with the padded id |
| FieldData.FieldStore.UpdateFieldSection | vue-vben-admin/apps/backend-mock/utils/field-data.ts:236-249 | replaces only the matching section inside the field named by `fieldId`; no result and no change when either is missing |
| FieldData.FieldStore.DeleteFieldSection | vue-vben-admin/apps/backend-mock/utils/field-data.ts:252-261 | removes the first section with the id from the first field (in list order) holding one, and says whether it did; the field count is unchanged |
| FieldApi.CheckFieldBody | vue-vben-admin/apps/backend-mock/api/field/create.post.ts:9-16 | rejects exactly a falsy name, address or manager or an undefined area; an accepted body keeps its values |
| FieldApi.ZeroAreaAccepted | vue-vben-admin/apps/backend-mock/api/field/create.post.ts:9 | an area of 0 passes the guard |
| FieldApi.CreateField | vue-vben-admin/apps/backend-mock/api/field/create.post.ts:9-19 | a failed guard gives 400 and leaves the store unchanged; otherwise exactly one field is added by `addField` and returned |
| FieldApi.CheckSectionBody | vue-vben-admin/apps/backend-mock/api/field/section/create.post.ts:9-16 | rejects exactly a falsy fieldId or name or an undefined area |
| FieldApi.CreateSection | vue-vben-admin/apps/backend-mock/api/field/section/create.post.ts:9-29 | 400 and no change on a failed guard (so a missing fieldId never gives 404); 404 and no change for an unknown parent; otherwise the reply is the appended section, with the derived id, the parent id, the body's info and now for both timestamps |
| EquipmentData.NewEquipment | vue-vben-admin/apps/backend-mock/utils/equipment-data.ts:194-202 | createTime and updateTime are the same now; a supplied id overrides the generated one; every other property is copied from the argument |
| EquipmentData.MergeEquipment | vue-vben-admin/apps/backend-mock/utils/equipment-data.ts:216-220 | for every property a supplied value overrides and an omitted one keeps the old value (createTime included); updateTime is always now |
| EquipmentData.MergeEquipmentIdempotent | vue-vben-admin/apps/backend-mock/utils/equipment-data.ts:216-220 | merging the same patch twice equals merging it once |
| EquipmentData.ModelsFor | vue-vben-admin/apps/backend-mock/utils/equipment-data.ts:147-158 | every type, including unknown ones, has a list of five models |
| EquipmentData.GenerateEquipment | vue-vben-admin/apps/backend-mock/utils/equipment-data.ts:67-186 | a generated record has an enumerated type and status, a seed field, a section from that field's fixed set (none for field "3"), a battery level in 1..100 when present, and consistent install and report times |
| EquipmentData.SeedEquipment | vue-vben-admin/apps/backend-mock/utils/equipment-data.ts:67 | the seed list holds one generated record per draw, in order |
| EquipmentData.EquipmentStore.constructor | vue-vben-admin/apps/backend-mock/utils/equipment-data.ts:67 | the store starts with the seed list |
| EquipmentData.EquipmentStore.GetEquipmentById | vue-vben-admin/apps/backend-mock/utils/equipment-data.ts:189-191 | no result exactly when no record has the id; otherwise the first record with the id |
| EquipmentData.EquipmentStore.AddEquipment | vue-vben-admin/apps/backend-mock/utils/equipment-data.ts:194-207 | the new record goes to index 0 and the old records follow unchanged |
| EquipmentData.EquipmentStore.UpdateEquipment | vue-vben-admin/apps/backend-mock/utils/equipment-data.ts:210-224 | unknown id: an error and no change; otherwise the merged record replaces the old one at the same index |
| EquipmentData.EquipmentStore.DeleteEquipment | vue-vben-admin/apps/backend-mock/utils/equipment-data.ts:227-235 | unknown id: an error and no change; otherwise exactly the first matching record is removed, the rest keep their order |
| EquipmentApi.CheckEquipmentBody | vue-vben-admin/apps/backend-mock/api/equipment/create.post.ts:8-14 | rejects exactly a falsy name, type, model, serialNumber or fieldId or an undefined status |
| EquipmentApi.TypeZeroRejectedStatusZeroAccepted | vue-vben-admin/apps/backend-mock/api/equipment/create.post.ts:8 | type 0 is rejected by the falsy test while status 0 is accepted |
| EquipmentApi.CreateEquipment | vue-vben-admin/apps/backend-mock/api/equipment/create.post.ts:8-17 | 400 and no change on a failed guard; otherwise exactly one record is prepended by `addEquipment` and returned, with no serial-number check |
| EquipmentApi.DeleteEquipment | vue-vben-admin/apps/backend-mock/api/equipment/delete.delete.ts:8-25 | 400 and no change for a falsy id; 500 and no change for an unknown id; otherwise exactly one record removed and success |
| ActivityData.NewActivity | vue-vben-admin/apps/backend-mock/utils/activity-data.ts:189-198 | createTime equals updateTime equals now; a supplied id overrides the generated one; every other property is copied from the argument |
| ActivityData.MergeActivity | vue-vben-admin/apps/backend-mock/utils/activity-data.ts:211-215 | for every property a supplied value overrides and an omitted one keeps the old value (createTime included); updateTime is always now; an empty patch changes only updateTime |
| ActivityData.MergeActivityIdempotent | vue-vben-admin/apps/backend-mock/utils/activity-data.ts:211-215 | merging the same patch twice equals merging it once |
| ActivityData.GenerateActivity | vue-vben-admin/apps/backend-mock/utils/activity-data.ts:52-181 | endTime and weatherInfo exactly when not PLANNED, effectDescription exactly when COMPLETED, updateTime is endTime or else createTime, 0-3 materials and 0-5 images, sections from the field's fixed set |
| ActivityData.SeedActivities | vue-vben-admin/apps/backend-mock/utils/activity-data.ts:52 | the seed list holds one generated activity per draw, in order |
| ActivityData.ActivityStore.constructor | vue-vben-admin/apps/backend-mock/utils/activity-data.ts:52 | the store starts with the seed list |
| ActivityData.ActivityStore.GetActivityById | vue-vben-admin/apps/backend-mock/utils/activity-data.ts:184-186 | no result exactly when no activity has the id; otherwise the first one with the id |
| ActivityData.ActivityStore.AddActivity | vue-vben-admin/apps/backend-mock/utils/activity-data.ts:189-202 | prepends exactly one record whose createTime equals updateTime; the rest unchanged |
| ActivityData.ActivityStore.UpdateActivity | vue-vben-admin/apps/backend-mock/utils/activity-data.ts:205-219 | unknown id: an error and no change; otherwise the merged record replaces the old one at the same index |
| ActivityData.ActivityStore.DeleteActivity | vue-vben-admin/apps/backend-mock/utils/activity-data.ts:222-230 | unknown id: an error and no change; otherwise exactly the first matching record is removed, the rest keep their order |
| ActivityApi.CheckActivityBody | vue-vben-admin/apps/backend-mock/api/activity/create.post.ts:10-16 | rejects exactly a falsy fieldId, title or startTime or an undefined activityType or status |
| ActivityApi.ZeroTypeAndStatusAccepted | vue-vben-admin/apps/backend-mock/api/activity/create.post.ts:10 | activityType 0 and status 0 pass the guard |
| ActivityApi.CreateActivity | vue-vben-admin/apps/backend-mock/api/activity/create.post.ts:10-21 | 400 and no change on a failed guard; otherwise exactly one activity is prepended by `addActivity` and returned |
| ActivityApi.DeleteActivity | vue-vben-admin/apps/backend-mock/api/activity/delete.delete.ts:10-29 | 400 and no change for a falsy id; 500 and no change for an unknown id; otherwise exactly one activity removed and success |
| Logger.GetOperationType | vue-vben-admin/apps/backend-mock/middleware/logger.ts:105-122 | LOGIN whenever the path contains /login, else LOGOUT when it contains /logout, else by method with QUERY as default; never EXPORT, PROCESS or IGNORE |
| Logger.ModuleOf | vue-vben-admin/apps/backend-mock/middleware/logger.ts:125-143 | the label of the first table key the path starts with; 其他 exactly when no key is a prefix |
| Logger.GetModuleFromPath | vue-vben-admin/apps/backend-mock/middleware/logger.ts:137-142 | the loop over the table returns the same label as `ModuleOf` |
| Logger.UserPrefixMatches | vue-vben-admin/apps/backend-mock/middleware/logger.ts:138 | any path starting with /api/user is user management |
| Logger.UsernamePathIsUserModule | vue-vben-admin/apps/backend-mock/middleware/logger.ts:127 | /api/username is classified as 用户管理 |
| Logger.Action | vue-vben-admin/apps/backend-mock/middleware/logger.ts:147-155 | the action word is two characters, and it is 操作 exactly when the method is not one of the five keys |
| Logger.GetOperationDescription | vue-vben-admin/apps/backend-mock/middleware/logger.ts:146-158 | 查询, 创建, 更新, 更新, 删除 for GET, POST, PUT, PATCH, DELETE and 操作 for any other or missing method, followed by the module label |
| Logger.DescriptionMatchesOperationType | vue-vben-admin/apps/backend-mock/middleware/logger.ts:105-158 | away from login and logout, the description starts with 创建, 更新 or 删除 exactly when the type is CREATE, UPDATE or DELETE, and always ends with the module label |
| Logger.ActionMatchesOperationType | vue-vben-admin/apps/backend-mock/middleware/logger.ts:105-158 | away from login and logout, CREATE, UPDATE and DELETE go with 创建, 更新 and 删除, and QUERY with 查询 or 操作 |
| Logger.RequestPath | vue-vben-admin/apps/backend-mock/middleware/logger.ts:54 | the URL up to its first ?, the whole URL when it has none, and "" when it is missing |
| Logger.GetClientInfo | vue-vben-admin/apps/backend-mock/middleware/logger.ts:26-33 | ip from x-forwarded-for, else x-real-ip, else unknown; browser and os with unknown as fallback; none empty |
| Logger.GetUserInfo | vue-vben-admin/apps/backend-mock/middleware/logger.ts:36-48 | anonymous without a token; otherwise the token's username when truthy, else anonymous, and its id when truthy, else null |
| Logger.RequestParams | vue-vben-admin/apps/backend-mock/middleware/logger.ts:63-67 | non-empty only for POST and PUT, where it is the serialised body |
| Logger.LogRow | vue-vben-admin/apps/backend-mock/middleware/logger.ts:83-97 | the row carries the classifiers of the request path, status SUCCESS and an empty responseData |
| MenuIds.GetMenuIds | vue-vben-admin/apps/backend-mock/utils/mock-data.ts:428-437 | the pushed ids are the pre-order listing of the forest |
| MenuIds.PreOrderLength | vue-vben-admin/apps/backend-mock/utils/mock-data.ts:428-437 | exactly one id per node |
| MenuIds.PreOrderCons | vue-vben-admin/apps/backend-mock/utils/mock-data.ts:430-435 | a node's id comes right before its subtree's ids, and later siblings follow |
| MenuIds.LeafContributesOwnId | vue-vben-admin/apps/backend-mock/utils/mock-data.ts:431-432 | a node with empty children contributes only its own id |
| MenuIds.PreOrderConcat | vue-vben-admin/apps/backend-mock/utils/mock-data.ts:430-436 | flattening a ++ b is flattening a, then b |
| AlertApi.GenerateMockAlert | vue-vben-admin/apps/backend-mock/api/alert/list.post.ts:5-20 | status and level in 0..2, handleTime exactly when status is 1 and then between createTime and now, createTime within the last 30 days, and the device name and content formats |
| AlertApi.SeedAlerts | vue-vben-admin/apps/backend-mock/api/alert/list.post.ts:23 | 100 alerts, the i-th generated with index i |
| AlertApi.QueryOf | vue-vben-admin/apps/backend-mock/api/alert/list.post.ts:27-35 | defaults page 1, pageSize 10, keyword "", status -1, level -1 |
| AlertApi.FilterAlertsMember | vue-vben-admin/apps/backend-mock/api/alert/list.post.ts:38-65 | an alert is kept exactly when it is in the list and passes the keyword, status, level and inclusive time filters that are switched on |
| AlertApi.FilterAlertsSubsequence | vue-vben-admin/apps/backend-mock/api/alert/list.post.ts:38-65 | the filtered list is an order-preserving subsequence of the alerts |
| AlertApi.DefaultQueryKeepsAll | vue-vben-admin/apps/backend-mock/api/alert/list.post.ts:41-58 | with no keyword, status, level or time range every alert is kept, in order |
| AlertApi.PageWindow | vue-vben-admin/apps/backend-mock/api/alert/list.post.ts:68-71 | for page >= 1 and pageSize >= 0 the items are the window starting at (page-1)*pageSize, with at most pageSize elements |
| AlertApi.ListAlerts | vue-vben-admin/apps/backend-mock/api/alert/list.post.ts:25-73 | every returned alert is in the alerts and passes the filters; at most pageSize of them |
| AlertApi.CreateAlert | vue-vben-admin/apps/backend-mock/api/alert/create.post.ts:9-29 | 400 exactly when deviceName, content or assignee is falsy or level is undefined; otherwise a new alert with those values, status 0 and no handleTime |
| AlertApi.LevelZeroAccepted | vue-vben-admin/apps/backend-mock/api/alert/create.post.ts:9 | level 0 is accepted |
| ActivityList.FilterActivitiesMember | vue-vben-admin/apps/backend-mock/api/activity/list.get.ts:23-61 | an activity is kept exactly when it is in the list and passes every active filter |
| ActivityList.ZeroParameterSelectsZero | vue-vben-admin/apps/backend-mock/api/activity/list.get.ts:36-47 | a type or status parameter of "0" selects exactly the value 0 |
| ActivityList.LeTotal | vue-vben-admin/apps/backend-mock/api/activity/list.get.ts:65-80 | the comparison order is total |
| ActivityList.LeTransitive | vue-vben-admin/apps/backend-mock/api/activity/list.get.ts:65-80 | the comparison order is transitive |
| ActivityList.ArrayKeysCompareJoined | vue-vben-admin/apps/backend-mock/api/activity/list.get.ts:74-79 | sorting by materials or images orders two activities by their comma-joined arrays, ascending or descending as sortOrder says |
| ActivityList.NoMaterialsFirst | vue-vben-admin/apps/backend-mock/api/activity/list.get.ts:74-79 | in an ascending sort by materials, an activity with no materials comes strictly before one whose first material is a non-empty name |
| ActivityList.OrderOf | vue-vben-admin/apps/backend-mock/api/activity/list.get.ts:18-19 | sortBy defaults to createTime and the order is ascending exactly when sortOrder is asc (default desc) |
| ActivityList.SortActivities | vue-vben-admin/apps/backend-mock/api/activity/list.get.ts:65-80 | the sorted list is a permutation of its input |
| ActivityList.SortActivitiesSorted | vue-vben-admin/apps/backend-mock/api/activity/list.get.ts:65-80 | the sorted list is sorted in the comparison order |
| ActivityList.ListActivities | vue-vben-admin/apps/backend-mock/api/activity/list.get.ts:23-81 | the result holds exactly the activities that pass, is a permutation of the filtered list, sorted when sortBy is truthy and equal to the filtered list otherwise |
| ActivityStatistics.FilterForStatsMember | vue-vben-admin/apps/backend-mock/api/activity/statistics.get.ts:12-29 | an activity is counted exactly when it is in the list and passes the field and (both-ends) date filters |
| ActivityStatistics.MonthKey | vue-vben-admin/apps/backend-mock/api/activity/statistics.get.ts:57 | the month key has two digits and reads back as the month |
| ActivityStatistics.MonthKeyListed | vue-vben-admin/apps/backend-mock/api/activity/statistics.get.ts:49-52 | each month increments one of the twelve keys initialised |
| ActivityStatistics.CountMonths | vue-vben-admin/apps/backend-mock/api/activity/statistics.get.ts:48-59 | exactly the keys 01..12, each counting its month, summing to the number of filtered activities |
| ActivityStatistics.GetActivityStatistics | vue-vben-admin/apps/backend-mock/api/activity/statistics.get.ts:12-65 | byType has keys {0,1,2,3,4,5,99}, byStatus {0,1,2,3}, byMonth 01..12, each holding its count; byMonth sums to totalCount and byType and byStatus to at most totalCount |
| Tally.CountTable | vue-vben-admin/apps/backend-mock/api/activity/statistics.get.ts:32-45 | one entry per enumeration value, holding how many elements have it |
| Tally.CountTableSum | vue-vben-admin/apps/backend-mock/api/activity/statistics.get.ts:65 | the counts over distinct keys sum to at most the number counted, and to exactly it when every element has one of the keys |
| EquipmentStatistics.FilterForStatsMember | vue-vben-admin/apps/backend-mock/api/equipment/statistics.get.ts:13-15 | a record is counted exactly when it is in the list and, when fieldId is given, has that field |
| EquipmentStatistics.Bucket | vue-vben-admin/apps/backend-mock/api/equipment/statistics.get.ts:41-51 | noData exactly when undefined, low exactly below 20, medium exactly in 20..59, high exactly from 60 |
| EquipmentStatistics.CountBattery | vue-vben-admin/apps/backend-mock/api/equipment/statistics.get.ts:33-51 | each counter is the number of records in its bucket, and the four sum to the number of records |
| EquipmentStatistics.BucketsPartition | vue-vben-admin/apps/backend-mock/api/equipment/statistics.get.ts:41-51 | every record falls in exactly one bucket |
| EquipmentStatistics.OnlineRate | vue-vben-admin/apps/backend-mock/api/equipment/statistics.get.ts:54-56 | 0 for no records, otherwise online/total exactly, always within [0, 1] |
| EquipmentStatistics.GetEquipmentStatistics | vue-vben-admin/apps/backend-mock/api/equipment/statistics.get.ts:4-63 | byStatus keys {0,1,2,3} and byType keys {0..6,99} with their counts, byStatus summing to at most totalCount, battery buckets partitioning totalCount, and the rate of byStatus[ONLINE] |
| UserApi.MockUsersUnique | vue-vben-admin/apps/backend-mock/utils/mock-data.ts:40-81 | the mock users have distinct usernames |
| UserApi.ListUsersMember | vue-vben-admin/apps/backend-mock/api/user/list.get.ts:18-53 | a user is kept exactly when it passes the username (case-insensitive substring), realName (substring), department (equality), role (membership) and status filters that are switched on |
| UserApi.ListUsersSubsequence | vue-vben-admin/apps/backend-mock/api/user/list.get.ts:19 | the result is an order-preserving subsequence of the users |
| UserApi.StatusSelectsDisabled | vue-vben-admin/apps/backend-mock/api/user/list.get.ts:50-53 | status "0", "2" and the empty string all select exactly the disabled users |
| UserApi.StatusOneSelectsEnabled | vue-vben-admin/apps/backend-mock/api/user/list.get.ts:50-53 | status "1" selects exactly the enabled users |
| UserApi.ListNormalUsersMember | vue-vben-admin/apps/backend-mock/api/user/list/normal.get.ts:17-38 | a user is kept exactly when it lacks super_admin and passes the username, realName and department filters |
| UserApi.NormalUsersExcludeSuperAdmin | vue-vben-admin/apps/backend-mock/api/user/list/normal.get.ts:17 | no returned user has the super_admin role |
| UserApi.ListNormalUsersSubsequence | vue-vben-admin/apps/backend-mock/api/user/list/normal.get.ts:17-38 | the result is an order-preserving subsequence of the users |
| UserApi.NormalUsersIgnoreRoleAndStatus | vue-vben-admin/apps/backend-mock/api/user/list/normal.get.ts:8-14 | role and status parameters have no effect |
| UserApi.NewUser | vue-vben-admin/apps/backend-mock/api/user/create.post.ts:22-31 | the new user carries the given fields, status 1 and the fresh id and time |
| UserApi.AppendKeepsUnique | vue-vben-admin/apps/backend-mock/api/user/create.post.ts:17-33 | appending a user whose name is not taken keeps usernames distinct |
| UserApi.UserStore.constructor | vue-vben-admin/apps/backend-mock/utils/mock-data.ts:40 | the store starts with the mock users |
| UserApi.UserStore.CreateUser | vue-vben-admin/apps/backend-mock/api/user/create.post.ts:9-35 | incomplete body or taken name: rejected with its message and no change; otherwise exactly one user appended and success; distinct usernames stay distinct |
| FormatTime.FormatRelativeTime | vue-vben-admin/apps/web-ele/src/utils/formatTime.ts:41-60 | "" exactly for a falsy date; 刚刚 below one minute; then the first threshold that holds, in order minutes, hours, days, months, years |
| FormatTime.RecentOrFutureIsJustNow | vue-vben-admin/apps/web-ele/src/utils/formatTime.ts:45-47 | less than a minute ago, and any future date, shows 刚刚 |
| FormatTime.MinutesShown | vue-vben-admin/apps/web-ele/src/utils/formatTime.ts:48 | one to 59 whole minutes ago shows that many minutes |
| FormatTime.HoursShown | vue-vben-admin/apps/web-ele/src/utils/formatTime.ts:50-51 | one to 23 whole hours ago shows that many hours |
| FormatTime.DaysShown | vue-vben-admin/apps/web-ele/src/utils/formatTime.ts:53-54 | one to 29 whole days ago shows that many days |
| FormatTime.CountReadsBack | vue-vben-admin/apps/web-ele/src/utils/formatTime.ts:48 | the number in a minutes label reads back as the minute difference |
| Mock.PickSection | vue-vben-admin/apps/backend-mock/utils/equipment-data.ts:73-92 | no section exactly for fields other than 1, 2, 4, 5; otherwise one of the field's fixed ids |

## Left out

- The Prisma-backed handlers (equipment list and update; field list, update and delete; section list and update; roles, logs, permissions; alert assign and process) are not part of this model. Their behaviour lives in the database.
- `alert/ignore.post.ts` is a stub with no state effect and is not part of this model.
- The logger's event wiring is not modelled: patching `res.end`, `readBody`, `verifyAccessToken` and the `operationLog` write are I/O and foreign code. The serialised body and the token payload are parameters, and only the row the middleware builds is modelled (`Logger.LogRow`).
- Faker and `Math.random` are not modelled. Every random draw is a parameter (`AlertChoices`, `EquipmentChoices`, `ActivityChoices`), and the real time intervals (`recent`, `past`, `between`) become bounds on the chosen timestamps.
- Timestamps are millisecond integers. ISO strings and `new Date(...)` parsing are not modelled, so a time-valued sort key compares numerically, and an invalid date string is not representable.
- `getMonth()` is not modelled. The local-calendar month of a timestamp is the parameter `monthOf` of `ActivityStatistics.GetActivityStatistics`.
- dayjs is not modelled. `FormatTime.FormatRelativeTime` takes the five `diff` values as inputs. `FormatTime.FromElapsed` derives minutes, hours and days as truncated quotients of the elapsed milliseconds, and takes the calendar months and years as given.
- EquipmentStatistics.OnlineRate: the rate is an exact `real` quotient. IEEE floating-point rounding is not modelled.
- The `location` latitude and longitude of equipment are floating point and not modelled.
- `usePageResponseSuccess`, `useResponseSuccess` and `useResponseError` are not part of this model. The page envelope and any slicing it does are not modelled. `AlertApi.ListAlerts` returns the handler's `items` slice; the envelope built from it is not modelled, and neither is the computed alert `total`, which the handler never passes on.
- ActivityList.Le: `localeCompare` is modelled as lexicographic order on Unicode code points (Dafny characters). Locale collation rules are not modelled.
- ActivityList.Le: the JavaScript comparator answers 1 for equal non-string values, and also for a value compared with `undefined` in either direction. There it gives no consistent order, and the order `Array.prototype.sort` produces is left to the engine. The model sorts by a total preorder that agrees with the comparator wherever it is consistent: numbers before strings before arrays before `undefined`, ties in either order. On one sort key, two defined values are always of the same kind.
- ActivityList.SortKey: `materials` and `images` are arrays of strings, and `<` compares them by their comma-joined strings. The model compares the joined strings by code point, while JavaScript compares UTF-16 code units. The two orders differ only between characters above U+FFFF and characters in U+E000–U+FFFF.
- ActivityList.SortActivities: the built-in in-place sort of the copied array is modelled as a pure insertion sort on a sequence. Stability and the engine's algorithm are not modelled.
- `Number(s)` is modelled for plain decimal digit strings (`Strings.ParseDecimal`). Signs, spaces, fractions, exponents and hexadecimal spellings, and `Number('')` being 0, are not modelled. The activity filters only pass non-empty parameters to `Number`. The user status filter also passes `''`: `Number('') === 1` is false, and `ParseDecimal("")` is `None`, so `status=''` selects the disabled users in the model as in the code.
- Case mapping covers ASCII letters only (`Strings.LowerChar`, `Strings.UpperChar`).
- Query parameters are single strings. Repeated parameters arriving as arrays are not modelled.
- Request headers are a plain map from lower-case names to strings. Array-valued headers are not modelled.
- A menu node without a `children` property is modelled as one with empty `children`, which `getMenuIds` treats identically.
- The `catch` blocks of the create and list handlers are not modelled. A request body is a record here, so a missing body is not representable. In the code, destructuring a missing body throws in every create handler, and the catch path answers instead of the guard: for example `创建用户失败` rather than `请填写完整的用户信息` in user/create.post.ts. The 500 paths of the two delete handlers, where `deleteActivity` and `deleteEquipment` do throw, are modelled.
- The frontend API clients, routes, locale tables and the static menu data are declarations and are not part of this model.
