# FMD outbreak tracker: a verified model of its core

The service publishes foot-and-mouth-disease (FMD) control data for the four regions of
Eswatini. It has four geo entities: outbreaks, cordon lines, foot-wash stations and dip
tanks. It also has news updates. Three parts of the service are modelled here.

- **The read API.** Each viewset's `get_queryset` starts from a visibility gate. It then
  applies optional exact-match filters and boolean-flag filters, and sorts by a fixed
  key. The custom `list` responses, the `geojson` actions (RFC 7946 FeatureCollections)
  and the outbreak `statistics` action are built on it. So are the updates endpoint and
  the home and updates pages.
- **The admin bulk actions.** Each one sets named columns on the selected rows and
  reports how many rows it updated.
- **The update record.** This covers its content preview, its SET_NULL link to an
  outbreak and its text form.

The model works as follows:

- Database tables and querysets are sequences of records. `queryset.filter` is
  `Seqs.Filter`, and `order_by` is the stable insertion sort `Seqs.Sort` by a total
  preorder.
- Query strings are maps from parameter name to value.
- Point coordinates are whole micro-degrees, the exact value of a `DecimalField(9, 6)`.
  Cordon-line vertices are JSON numbers; the model holds them as micro-degrees too.
- Timestamps are integers, of which only the order matters.
- Each admin page is a class that holds its table in a `rows` field. Its actions are
  methods that reassign `rows`, and they are proved against specification functions on
  the old table.
- The `list` methods and the pages' `get_context_data` are methods with loops or
  key-by-key map updates. Each is proved against the functions that specify it.

Modules follow the source files:

| module | file |
|---|---|
| `OutbreakModels` | `outbreaks/models.py` |
| `OutbreakViews` | `outbreaks/views.py` |
| `GeoAdmin` | `outbreaks/admin.py` |
| `UpdateModels` | `updates/models.py` |
| `UpdateSerializers` | `updates/serializers.py` |
| `UpdateViews` | `updates/views.py` |
| `UpdateAdminActions` | `updates/admin.py` |
| `PagesViews` | `pages/views.py` |

Five helper modules support them:

- `Seqs`: querysets as sequences.
- `Text`: code-point string order and ASCII `lower()`.
- `Choices`: `get_FOO_display`.
- `Grouping`: `values(key).annotate(count=Count('id')).order_by(key)`.
- `BulkUpdate`: `queryset.update`.

## Model

| member | source | states |
|---|---|---|
| OutbreakModels.NewOutbreak | outbreaks/models.py:37-108 | A new outbreak has status "active", is not verified, is active, and has 0 animals affected and 0 quarantined. Its source is "Ministry of Agriculture", it is reported "now", and it has no confirmation or clearing date. |
| OutbreakModels.DisplayLabels | outbreaks/models.py:16-27 | Each code of the status, region, cordon-status and road-type tables shows its paired label, e.g. manzini is "Manzini" and surveillance is "Under Surveillance". |
| OutbreakModels.ChoiceTablesDistinct | outbreaks/models.py:16-262 | No choice table repeats a code, so each listed code has exactly one label: outbreak status (line 16), region (lines 22, 151 and 250), cordon status (line 158) and road type (line 257). |
| OutbreakModels.OutbreakStr | outbreaks/models.py:115-116 | An outbreak's text starts with its title and " - ", ends with its status label, and has no other characters. |
| OutbreakModels.CordonLineStr | outbreaks/models.py:219-220 | A cordon line's text starts with its name, " (", its region label and ") - ". It ends with its status label and has no other characters. |
| OutbreakModels.FootWashStationStr | outbreaks/models.py:339-340 | A station's text starts with its name, " - ", its road name and " (". It ends with its region label and ")" and has no other characters. |
| OutbreakModels.DipTankStr | outbreaks/models.py:438-440 | A dip tank's text starts with its name, " (", its region label and ") - ", and is exactly long enough to end in "Affected" or "Clear". |
| Text.PrefixSuffixDetermine | outbreaks/models.py:116 | A prefix, a suffix and a length with nothing left between them determine the whole string, so each `__str__` contract above fixes the text. |
| OutbreakModels.DipTankStrStatus | outbreaks/models.py:438-440 | A dip tank's text ends in "Affected" if and only if the tank is affected, and ends in "Clear" if and only if it is not. |
| OutbreakModels.OutbreakFeature | outbreaks/models.py:118-143 | The feature is a Point at [longitude, latitude]. It carries the outbreak's id and its raw status and region codes, each beside its label from the choice table. Title, description, location name, source, both animal counts and both dates are carried through unchanged. |
| OutbreakModels.Positions | outbreaks/models.py:228 | There is one position per stored vertex, and position i is [lng, lat] of vertex i. |
| OutbreakModels.CordonLineFeature | outbreaks/models.py:222-243 | The feature is a LineString with as many positions as stored vertices. Position i is [lng, lat] of vertex i. It carries the line's id and its raw region and status codes, each beside its label from the choice table. Name, description, restrictions, the establishment date and the expiry date (absent or not) are carried through unchanged. |
| OutbreakModels.FootWashStationFeature | outbreaks/models.py:342-366 | The feature is a Point at [longitude, latitude]. It carries the station's id and its raw region and road-type codes, each beside its label from the choice table. Name, road name, operational flag, instructions, operating hours, contact person, contact phone and the maintenance date (absent or not) are carried through unchanged. |
| OutbreakModels.DipTankFeature | outbreaks/models.py:442-463 | The feature is a Point at [longitude, latitude] with radius 5000, whatever the tank. It carries the tank's id, its affected flag and its raw region code beside the region label. Name, capacity, notes and the inspection date (absent or not) are carried through unchanged. |
| OutbreakModels.PointFeaturesRoundTrip | outbreaks/models.py:124-127 | Reading the position of an outbreak, station or dip-tank Point back as (lat, lng) gives the stored latitude and longitude. |
| OutbreakModels.CordonLineRoundTrip | outbreaks/models.py:226-229 | Decoding the LineString back into {lat, lng} vertices gives exactly the stored coordinates, in order. |
| OutbreakModels.CordonLineRfcValidity | outbreaks/models.py:181-183 | The emitted LineString is a valid RFC 7946 line (section 3.1.4: two or more positions) if and only if at least two vertices are stored. No check guards this, so a line with 0 or 1 vertices is still emitted. |
| OutbreakModels.OptionalTimestampsNull | outbreaks/models.py:236-241 | Each optional timestamp in a feature is null exactly when the stored value is absent: cordon-line expiry, station maintenance and dip-tank inspection. |
| OutbreakViews.OutbreakQuerySet | outbreaks/views.py:32-52 | The outbreak `get_queryset`: base set, status and region filters, sort. Specified by `OutbreakQuerySetCanonical`, `OutbreakQuerySetSpec` and `OutbreakFiltersKeepOrder`. |
| OutbreakViews.OutbreakQuerySetCanonical | outbreaks/views.py:32-52 | The outbreak `get_queryset` filters the table once by "active, verified, and matching each given status or region", then sorts by report date. |
| OutbreakViews.OutbreakQuerySetSpec | outbreaks/views.py:40-52 | The listing is sorted newest first. An outbreak is in it if and only if it is stored, active and verified, and matches each non-empty filter. It appears exactly as often as it is stored. |
| OutbreakViews.OutbreakFiltersKeepOrder | outbreaks/views.py:43-50 | The filtered listing is the unfiltered one with the non-matching outbreaks removed, so filters never reorder. |
| OutbreakViews.DipTankQuerySet | outbreaks/views.py:123-144 | The dip-tank `get_queryset`. Specified by `DipTankQuerySetCanonical`, `DipTankQuerySetSpec` and `DipTankFiltersKeepOrder`. |
| OutbreakViews.DipTankQuerySetCanonical | outbreaks/views.py:123-144 | The dip-tank `get_queryset` filters once by "active, region if given, affected flag if present", then sorts by (region, name). |
| OutbreakViews.DipTankQuerySetSpec | outbreaks/views.py:131-144 | The listing is sorted by (region, name) and holds exactly the matching active tanks, each with its stored multiplicity. A present `affected` flag selects `is_affected == (lower(value) == "true")`. |
| OutbreakViews.DipTankFiltersKeepOrder | outbreaks/views.py:134-142 | Dip-tank filters only remove tanks from the ordered listing. |
| OutbreakViews.DipTankEmptyFlagSelectsUnaffected | outbreaks/views.py:139-142 | `affected=` (present but empty) selects only tanks that are not affected. |
| OutbreakViews.DipTankFilterExample | outbreaks/views.py:134-142 | Take three tanks: an affected Manzini tank, a clear Manzini tank and a clear Lubombo tank. `region=manzini&affected=true` returns only the first. |
| OutbreakViews.CordonLineQuerySet | outbreaks/views.py:201-221 | The cordon-line `get_queryset`. Specified by `CordonLineQuerySetCanonical`, `CordonLineQuerySetSpec` and `CordonLineFiltersKeepOrder`. |
| OutbreakViews.CordonLineQuerySetCanonical | outbreaks/views.py:201-221 | The cordon-line `get_queryset` filters once by "active, region and status if given", then sorts by establishment date. |
| OutbreakViews.CordonLineQuerySetSpec | outbreaks/views.py:209-221 | The listing is sorted newest established first and holds exactly the matching active lines, each with its stored multiplicity. |
| OutbreakViews.CordonLineFiltersKeepOrder | outbreaks/views.py:212-219 | Cordon-line filters only remove lines from the ordered listing. |
| OutbreakViews.StationQuerySet | outbreaks/views.py:279-306 | The station `get_queryset`. Specified by `StationQuerySetCanonical`, `StationQuerySetSpec` and `StationFiltersKeepOrder`. |
| OutbreakViews.StationQuerySetCanonical | outbreaks/views.py:279-306 | The station `get_queryset` filters once by "active, region and road type if given, operational flag if present", then sorts by (region, road name, name). |
| OutbreakViews.StationQuerySetSpec | outbreaks/views.py:289-306 | The listing is sorted by (region, road name, name) and holds exactly the matching active stations, each with its stored multiplicity. The operational flag reads like the affected flag. |
| OutbreakViews.StationFiltersKeepOrder | outbreaks/views.py:291-304 | Station filters only remove stations from the ordered listing. |
| OutbreakViews.DipTankOrderTotal | outbreaks/views.py:144 | (region, name) in code-point order is total and transitive. |
| OutbreakViews.StationOrderTotal | outbreaks/views.py:306 | (region, road name, name) in code-point order is total and transitive. |
| OutbreakViews.OutbreakOrderExample | outbreaks/views.py:52 | Outbreaks reported at T-5, T-3 and T-10 are listed as T-3, T-5, T-10. |
| OutbreakViews.DipTankItem | outbreaks/views.py:152-161 | A tank's list entry carries its id, name, region, affected flag, coordinates and capacity, and shows its region by the region table's label. |
| OutbreakViews.CordonLineItem | outbreaks/views.py:229-239 | A line's list entry carries its id, name, region, status, description and both dates, and shows region and status by their tables' labels. |
| OutbreakViews.StationItem | outbreaks/views.py:314-327 | A station's list entry carries its id, name, region, road name, road type, coordinates, operational flag, operating hours and contact phone, and shows region and road type by their tables' labels. |
| OutbreakViews.DipTankList | outbreaks/views.py:146-166 | `count` equals the number of results and the length of the dip-tank listing. Entry i is the list form of listed tank i. |
| OutbreakViews.CordonLineList | outbreaks/views.py:223-244 | `count` equals the number of results and the length of the cordon-line listing. Entry i is the list form of listed line i. |
| OutbreakViews.StationList | outbreaks/views.py:308-332 | `count` equals the number of results and the length of the station listing. Entry i is the list form of listed station i. |
| OutbreakViews.OutbreakGeoJson | outbreaks/views.py:55-72 | There is one feature per listed outbreak, in listing order. |
| OutbreakViews.DipTankGeoJson | outbreaks/views.py:169-186 | There is one feature per listed dip tank, in listing order. |
| OutbreakViews.CordonLineGeoJson | outbreaks/views.py:247-264 | There is one feature per listed cordon line, in listing order. |
| OutbreakViews.StationGeoJson | outbreaks/views.py:335-352 | There is one feature per listed station, in listing order. |
| OutbreakViews.OutbreakGeoJsonPublic | outbreaks/views.py:63-65 | Every outbreak feature is the feature of a stored outbreak that is active and verified and matches the filters. |
| OutbreakViews.DipTankGeoJsonRadius | outbreaks/views.py:177-179 | Every dip-tank feature is a Point with radius 5000. |
| OutbreakViews.Summarize | outbreaks/views.py:75-108 | The figures of the statistics action over a listing. Specified by `StatusCountersBound`, `StatisticsGroups` and `StatusGroupKeys`. |
| OutbreakViews.OutbreakStatistics | outbreaks/views.py:75-108 | The statistics action over the outbreak listing. Specified by `StatisticsSpec` and `StatisticsSums`. |
| OutbreakViews.ListedStatus | outbreaks/models.py:16-20 | A status code is in the table if and only if it is active, surveillance or cleared. |
| OutbreakViews.StatusGroupCounts | outbreaks/views.py:84-86 | The `by_status` group of status k holds the number of listed outbreaks with status k. |
| OutbreakViews.RegionGroupCounts | outbreaks/views.py:89-91 | The `by_region` group of region k holds the number of listed outbreaks in region k. |
| OutbreakViews.StatusCountersBound | outbreaks/views.py:98-101 | active + surveillance + cleared is at most the total. It equals the total when every status is a listed code. |
| OutbreakViews.StatisticsGroups | outbreaks/views.py:84-91 | `by_status` and `by_region` ascend strictly by key. Their counts are positive, add up to the total, and give for each key the number of listed outbreaks carrying it. In particular the active, surveillance and cleared groups hold the three status counters. |
| OutbreakViews.StatisticsShape | outbreaks/views.py:84-91 | `by_status` and `by_region` ascend strictly by key, their counts are positive, and each adds up to the total. |
| OutbreakViews.StatisticsKeyCounts | outbreaks/views.py:84-91 | For every key, its `by_status` and `by_region` groups hold the number of listed outbreaks carrying it. |
| OutbreakViews.StatusCounterGroups | outbreaks/views.py:84-101 | The active, surveillance and cleared groups of `by_status` hold the active, surveillance and cleared counters. |
| OutbreakViews.GroupsCountEveryKey | outbreaks/views.py:84-91 | For every key, the grouped status and region columns give the number of listed outbreaks carrying it. |
| OutbreakViews.StatusGroupKeys | outbreaks/views.py:84-86 | When every listed outbreak has a table status and each of the three statuses occurs, `by_status` is exactly three groups keyed active, cleared, surveillance, in that order. |
| OutbreakViews.StatisticsSums | outbreaks/views.py:94-95 | The animal totals are the sums of `animals_affected` and `animals_quarantined` over the matching outbreaks, whatever the order. |
| OutbreakViews.StatisticsSpec | outbreaks/views.py:75-108 | `total_outbreaks` is the length of the listing and of the geojson output. The status counters obey the bound. The groups are well formed, and the group of each status holds that status's counter. |
| Grouping.GroupCounts | outbreaks/views.py:84-91 | `values(key).annotate(count=Count('id')).order_by(key)` over one column. Specified by `GroupCountsSpec`. |
| Grouping.GroupCountsSpec | outbreaks/views.py:84-86 | Grouped counts ascend by key and are positive. A key has a group if and only if some row carries it. Its count is the number of such rows, and the counts add up to the number of rows. |
| Grouping.GroupsWellFormed | outbreaks/views.py:84-86 | Grouped counts ascend strictly by key, are positive, and add up to the number of rows. |
| Grouping.ThreeGroups | outbreaks/views.py:84-86 | Ascending groups whose keys come from three ordered values, each present, are exactly those three groups in order. |
| Grouping.StatusKeyOrder | outbreaks/views.py:86 | Status groups come in the order active, cleared, surveillance. |
| Choices.Label | outbreaks/models.py:116 | `get_FOO_display`. Specified by `LabelOfListed` and `LabelOfUnlisted`, and for the model's tables by `DisplayLabels` and `UpdateTypeLabels`. |
| Text.LowerIsTrue | outbreaks/views.py:141 | `lower(v) == "true"` holds exactly for the mixed-case spellings of "true". |
| BulkUpdate.UpdateWhere | outbreaks/admin.py:66 | The table after `queryset.update`: same length, and row i is the change of old row i when that row is chosen and old row i otherwise. Specified by `ApplyUpdate`, `UpdateWhereCount` and `UpdateWhereIdempotent`. |
| BulkUpdate.ApplyUpdate | outbreaks/admin.py:66 | The one-pass update yields the table with the change applied to exactly the chosen rows, and the number of chosen rows. |
| BulkUpdate.UpdateWhereCount | outbreaks/admin.py:66 | An update that keeps the selection selects the same number of rows afterwards. |
| GeoAdmin.MarkVerified | outbreaks/admin.py:64-67 | The table after `mark_as_verified`. Specified by `MarkVerifiedSpec`. |
| GeoAdmin.MarkCleared | outbreaks/admin.py:70-74 | The table after `mark_as_cleared` at `now`. Specified by `MarkClearedSpec` and `MarkClearedSharedTime`. |
| GeoAdmin.MarkAffected | outbreaks/admin.py:127-137 | The table after `mark_as_affected` or `mark_as_clear`. Specified by `MarkAffectedSpec` and `ClearUndoesAffected`. |
| GeoAdmin.MarkDipTankActive | outbreaks/admin.py:139-142 | The table after the dip-tank `mark_as_active`. Specified by `MarkDipTankActiveSpec`. |
| GeoAdmin.MarkCordonActive | outbreaks/admin.py:198-201 | The table after the cordon-line `mark_as_active`. Specified by `MarkCordonActiveSpec`. |
| GeoAdmin.MarkCordonInactive | outbreaks/admin.py:204-207 | The table after `mark_as_inactive`. Specified by `MarkCordonInactiveSpec`. |
| GeoAdmin.MarkOperational | outbreaks/admin.py:266-275 | The table after `mark_as_operational` or `mark_as_non_operational`. Specified by `MarkOperationalSpec`. |
| GeoAdmin.MarkVerifiedSpec | outbreaks/admin.py:64-67 | A row is verified afterwards if and only if it was verified before or is selected. No other field or row changes. A second application is a no-op and reports the same count. |
| GeoAdmin.MarkClearedSpec | outbreaks/admin.py:70-74 | Selected outbreaks get status "cleared" and clearing time `now`. Nothing else changes. The action is idempotent for the same `now`. |
| GeoAdmin.MarkClearedSharedTime | outbreaks/admin.py:73 | All selected outbreaks share one clearing time. |
| GeoAdmin.MarkAffectedSpec | outbreaks/admin.py:127-137 | The selected tanks' `is_affected` becomes the given value and nothing else changes. The action is idempotent and keeps the count. |
| GeoAdmin.ClearUndoesAffected | outbreaks/admin.py:127-137 | Marking tanks clear after marking them affected is the same as marking them clear. |
| GeoAdmin.MarkDipTankActiveSpec | outbreaks/admin.py:139-142 | The selected tanks become active and nothing else changes. The action is idempotent and keeps the count. |
| GeoAdmin.MarkCordonActiveSpec | outbreaks/admin.py:198-201 | The selected lines get status "active" and `is_active` true. Nothing else changes, and the action is idempotent. |
| GeoAdmin.MarkCordonInactiveSpec | outbreaks/admin.py:204-207 | The selected lines get status "inactive". Every row's `is_active` is unchanged, nothing else changes, and the action is idempotent. |
| GeoAdmin.MarkOperationalSpec | outbreaks/admin.py:266-275 | Only `is_operational` changes, to the given value, on the selected stations. The action is idempotent and keeps the count. |
| GeoAdmin.OutbreakAdmin.MarkAsVerified | outbreaks/admin.py:64-68 | The new table is `MarkVerified` of the old one. The returned count is the number of selected rows. |
| GeoAdmin.OutbreakAdmin.MarkAsCleared | outbreaks/admin.py:70-75 | The new table is `MarkCleared` of the old one at `now`. The returned count is the number of selected rows. |
| GeoAdmin.DipTankAdmin.MarkAsAffected | outbreaks/admin.py:127-131 | The new table is `MarkAffected(old, selected, true)`. The returned count is the number of selected rows. |
| GeoAdmin.DipTankAdmin.MarkAsClear | outbreaks/admin.py:133-137 | The new table is `MarkAffected(old, selected, false)`. The returned count is the number of selected rows. |
| GeoAdmin.DipTankAdmin.MarkAsActive | outbreaks/admin.py:139-143 | The new table is `MarkDipTankActive` of the old one. The returned count is the number of selected rows. |
| GeoAdmin.CordonLineAdmin.MarkAsActive | outbreaks/admin.py:198-202 | The new table is `MarkCordonActive` of the old one. The returned count is the number of selected rows. |
| GeoAdmin.CordonLineAdmin.MarkAsInactive | outbreaks/admin.py:204-208 | The new table is `MarkCordonInactive` of the old one. The returned count is the number of selected rows. |
| GeoAdmin.FootWashStationAdmin.MarkAsOperational | outbreaks/admin.py:266-270 | The new table is `MarkOperational(old, selected, true)`. The returned count is the number of selected rows. |
| GeoAdmin.FootWashStationAdmin.MarkAsNonOperational | outbreaks/admin.py:272-276 | The new table is `MarkOperational(old, selected, false)`. The returned count is the number of selected rows. |
| UpdateModels.NewUpdate | updates/models.py:29-83 | A new update is of type "news", published, not featured, and from "Ministry of Agriculture". It is published "now" and has no outbreak, image or document. |
| UpdateModels.UpdateTypeLabels | updates/models.py:14-19 | The four type codes keep their labels: News, Official Announcement, Control Measure / Guideline, and Alert / Warning. |
| UpdateModels.UpdateOrderTotal | updates/models.py:86 | Newest-first by `published_at` is a total preorder. |
| UpdateModels.UpdateStr | updates/models.py:90-91 | The text starts with the title and " (", ends with the type label and ")", and is exactly 3 characters longer than the two. |
| UpdateModels.UpdateStrExample | updates/models.py:90-91 | An alert titled "Movement ban" reads "Movement ban (Alert / Warning)". |
| UpdateModels.DeleteOutbreak | updates/models.py:36-43 | Deleting an outbreak with `on_delete=SET_NULL` on the update's link. Specified by `DeleteOutbreakSetsNull` and `DeleteOutbreakKeepsReferences`. |
| UpdateModels.DeleteOutbreakSetsNull | updates/models.py:36-43 | Deleting an outbreak removes that outbreak and only it, and deletes no update. Updates that referred to it keep every field except the reference, which becomes null. Other updates are unchanged. No reference to it remains. |
| UpdateModels.DeleteOutbreakKeepsReferences | updates/models.py:36-43 | If every update reference named a stored outbreak before the delete, it still does after. |
| UpdateSerializers.ContentPreview | updates/serializers.py:53-55 | Content of up to 200 characters is its own preview. Longer content becomes its first 200 characters plus "...", exactly 203 characters. |
| UpdateSerializers.PreviewBounds | updates/serializers.py:53-55 | A preview is never longer than 203 characters. It begins with the first min(200, length) characters of the content. |
| UpdateSerializers.PreviewIdempotent | updates/serializers.py:55 | Previewing a preview gives the preview back. |
| UpdateSerializers.Detail | updates/serializers.py:8-30 | The detail form of an update. Specified by `DetailKeepsFields` and `ListItemOfDetail`. |
| UpdateSerializers.ListItem | updates/serializers.py:33-55 | The list form of an update. Specified by `ListItemOfDetail`, `ContentPreview` and `PreviewBounds`. |
| UpdateSerializers.ListItemOfDetail | updates/serializers.py:33-51 | The list form is the detail form without content, outbreak, image, document and update time, and with the preview of its content. Both forms show the type's label. |
| UpdateSerializers.DetailKeepsFields | updates/serializers.py:8-30 | The detail form drops only `is_published`. |
| UpdateViews.UpdateQuerySet | updates/views.py:27-47 | The updates `get_queryset`. Specified by `UpdateQuerySetCanonical`, `UpdateQuerySetSpec`, `UpdateFiltersKeepOrder` and `FeaturedOtherValuesIgnored`. |
| UpdateViews.UpdateQuerySetCanonical | updates/views.py:27-47 | The updates `get_queryset` filters once by "published, type if given, featured if featured=true", then sorts newest first. |
| UpdateViews.UpdateQuerySetSpec | updates/views.py:35-47 | The listing is sorted newest first. It holds exactly the published updates that match the type and, if requested, are featured, each with its stored multiplicity. |
| UpdateViews.UpdateFiltersKeepOrder | updates/views.py:38-47 | The filtered listing is the unfiltered one with the non-matching updates removed. |
| UpdateViews.FeaturedOtherValuesIgnored | updates/views.py:43-45 | Any `featured` value other than "true" in some case (including "false" and "") gives the same listing as no `featured` parameter. |
| UpdateViews.UpdateList | updates/views.py:21-25 | The list action gives one list-form entry per listed update, in order. |
| UpdateViews.UpdateListPublished | updates/views.py:18 | Every list entry is the list form of a stored, published update. |
| UpdateAdminActions.MarkFeatured | updates/admin.py:58-61 | The table after `mark_as_featured`. Specified by `MarkFeaturedSpec`. |
| UpdateAdminActions.MarkPublished | updates/admin.py:64-67 | The table after `mark_as_published`. Specified by `MarkPublishedSpec`. |
| UpdateAdminActions.MarkFeaturedSpec | updates/admin.py:58-61 | An update is featured afterwards if and only if it was before or is selected, so the flag is never cleared. No other field or row changes. The action is idempotent and keeps the count. |
| UpdateAdminActions.MarkPublishedSpec | updates/admin.py:64-67 | The same holds for `is_published`. |
| UpdateAdminActions.UpdateAdmin.MarkAsFeatured | updates/admin.py:58-61 | The new table is `MarkFeatured` of the old one. The returned count is the number of selected rows. |
| UpdateAdminActions.UpdateAdmin.MarkAsPublished | updates/admin.py:64-67 | The new table is `MarkPublished` of the old one. The returned count is the number of selected rows. |
| PagesViews.StatusCount | pages/views.py:18-36 | One home counter: the active, verified outbreaks with a status. Specified by `StatusCountOfListing`, `HomeCountersMatchStatistics` and `HomeCountersBound`. |
| PagesViews.AnimalsAffectedTotal | pages/views.py:39-42 | The animals total of the home page. Specified by `HomeCountersMatchStatistics`. |
| PagesViews.FeaturedUpdates | pages/views.py:45-48 | The home page's featured updates. Specified by `FeaturedListing` and `FeaturedUpdatesSpec`. |
| PagesViews.LatestUpdates | pages/views.py:64 | The updates page's list. Specified by `LatestUpdatesSpec`. |
| PagesViews.HomeContextData | pages/views.py:14-50 | The context holds exactly the five keys: the three status counts, the animals total and the featured head. |
| PagesViews.UpdatesContextData | pages/views.py:62-65 | The context holds exactly the `updates` key, with the newest 20 published updates. |
| PagesViews.UnfilteredListing | pages/views.py:39 | The unfiltered outbreak listing is the active, verified outbreaks in report order. |
| PagesViews.StatusCountOfListing | pages/views.py:18-36 | Each home counter counts its status in the unfiltered outbreak listing. |
| PagesViews.HomeCountersMatchStatistics | pages/views.py:18-42 | The home counters and animals total equal the statistics endpoint asked without parameters. That endpoint's total is the number of active, verified outbreaks. |
| PagesViews.HomeCountersBound | pages/views.py:18-39 | The three counters sum to at most the number of active, verified outbreaks. They sum to exactly that number when every such status is a listed code. |
| PagesViews.FeaturedListing | pages/views.py:45-48 | The published, featured updates in the default order are the API's featured=true listing. |
| PagesViews.FeaturedUpdatesSpec | pages/views.py:45-48 | At most 3 featured updates are shown, each stored, published and featured. They are the head of the API's featured=true listing, newest first. There are exactly min(3, number available) of them. |
| PagesViews.LatestUpdatesSpec | pages/views.py:64 | At most 20 updates are shown, all published, newest first. They are the head of the API's unfiltered listing. |
| Seqs.FilterSort | outbreaks/views.py:52 | Filtering a sorted sequence equals sorting the filtered sequence, because the sort is stable. |
| Seqs.SortSorted | outbreaks/views.py:52 | The sort yields a sorted permutation of its input. |

## Left out

- `float(...)` of coordinates and `isoformat()` of timestamps are not modelled. Coordinates are exact micro-degrees and timestamps appear as their values.
- Sort ties: SQL does not fix the order of rows that tie on the sort key. The model keeps storage order for ties (a stable sort), so the order among equal keys is one possible outcome, not the only one.
- Text order: string keys compare by code point. Database collation rules (case-insensitive or locale orders) are not modelled.
- `lower()`: handles ASCII letters only. Other Unicode case mappings are not modelled.
- Query strings with repeated names: a query string carries one value per name. Django's `QueryDict.get` returns the last of repeated values; that is not modelled.
- LatLng: cordon-line vertices are JSON numbers in a `JSONField`, held as micro-degree integers. Vertex values with more than six decimals are not modelled.
- Malformed cordon coordinates: `CordonLine.coordinates` is a well-formed list of {lat, lng} objects. A JSON value of another shape, which would raise in the projection, is not modelled.
- `auto_now` time stamps: `last_updated` and `updated_at` are not refreshed on save. `queryset.update`, which all admin actions use, does not refresh them either, so the actions leave them unchanged as the source does.
- Selections: the admin actions take the selection as a set of primary keys.
- `mark_as_cleared`: `timezone.now()` becomes the `now` parameter.
- `message_user`: the message text built from the count is not modelled.
- Django internals: the ORM, DRF `Response` and serializers' value rendering, templates, `super().get_context_data` and its extra keys, file storage for `image` and `document`, HTTP 404 handling, transactions and concurrency are left out.
- `load_sample_data.py` and the URL modules are not part of this model.
- `outbreaks/serializers.py` is not part of this model. It holds only declarative field lists.
