# transitfeed: a verified model of its hard parts

transitfeed reads, checks, merges and rewrites GTFS timetables.  This project models the algorithms in it whose
correctness does not show from reading one body, and proves what they guarantee for all inputs:

* the A\* search over a graph of polylines, and the beam search on top of it (`transitfeed/shapelib.py`);
* the feed merger: fresh ids, merge maps, fare zones, references and calendars (`merge.py`);
* the upgrade of translations to the newer encoding (`upgrade_translations.py`);
* active dates, overlapping trips of a block, counts of trips and gaps in service
  (`transitfeed/serviceperiod.py`, `transitfeed/schedule.py`);
* interpolated stop times and runs of frequency trips (`transitfeed/trip.py`), the points of a shape
  (`transitfeed/shape.py`), the bounded problem list (`feedvalidator.py`), and ranges of language subtags
  (`bcp47languageparser.py`).

Code that changes state is modelled by classes and methods with loops (`PolyGraph`, `FeedMerger`, `TableTranslator`,
`ServicePeriod`, `Shape`, `BoundedProblemList`, ...); each method is proved against a specification, and what the
program promises is proved about that.  `dafny verify dfyconfig.toml` checks everything.

## How the model reads the program

* Points are values with equality and a total order, as `Point.__cmp__` intends.  The distance is any real metric; lengths
  and times are exact, so floating-point rounding is not modelled, but the rounding of guessed stop times to whole
  seconds, to the nearest and to the even one of two, is.
* A set or a dictionary that is iterated over is a sequence, or is taken apart in arbitrary order; what is proved holds
  for every order.  A priority queue is an ordered sequence, which is what `heapq` promises to behave like; ties are
  broken as the tuples' order breaks them.
* A table of a feed is a dictionary from ids, so within a table an id stands for one entity; merge maps, which the program
  keys by object, are kept for each table and keyed by id.  A missing optional attribute is an empty string, and so is a
  missing agency id.  The old feed is `a`, the new one `b`, as in the program.
* `load_without_errors` guarantees that the references of both feeds are valid; that is `Feeds.FeedOk`, and feeds for which
  it holds are of the type `LoadedFeed`.  A route without an agency is taken to be in a feed of one agency only: loading
  also lets it be in one with several, of which one has a blank id, but on such a feed the merger ends in an error.
* The start `0` of a truncated period is the earliest date.  Dates are strings of exactly eight digits; active dates are
  listed for the years 1900 to 2100 that validation accepts.
* Comparisons of `None` with numbers, which end in an error, are preconditions, except in
  `Shape.AddShapePointObjectUnsorted`, which says when it fails.

## What turned out different from the program's own words

* `shortest_path` promises a shortest polyline.  An open node that is improved keeps its old key in the heap, and then the
  answer can be longer than the shortest walk: `StaleKeys.StaleKeyMissesShortest` gives a graph of four nodes where it is
  8 instead of 3.  Where every node that is taken from the heap has a least up-to-date key the answer is shortest
  (`SteadyAnswerIsShortest`); in particular where no open node is improved (`AnswerIsShortest`).  The converse fails: in the
  same graph the search for another node takes a wrong one by a stale key, and its answer is shortest all the same
  (`HarmlessKeys.StaleKeyCanBeHarmless`).
* A duplicate polyline that `add_poly` says it skips is added to the graph like any other, and replaces the one of its name
  in the collection; a second polyline without a name ends in an error.
* For equal start and goal, `shortest_path` returns a polyline without points.
* `_add_path_to_heap` always admits the newcomer, so with room for one path it keeps the last one offered.  It keeps a
  shortest offer if and only if there is room for two (`Beams.KeepsShortestIff`).
* Zone ids are not among the ids that the merger's counter is moved beyond, so a kept zone and a generated zone id can
  coincide: `MergeExamples.ZonesCanBecomeOne` has two feeds for which they do.  Zones stay apart exactly if no id generated
  for a zone of an unmerged stop, at its first stop, is the id of a zone of merged ones
  (`StopMergeProofs.ZonesStayApart`).
* A merged old stop gets the parent station of its new counterpart (`MergeExamples.ParentCanChange`).  This is the image of
  its own exactly if both stops have the same parent station and that is merged too, or if neither has one
  (`StopMergeProofs.OwnParentIff`, for all stops `OwnParentsIff`).
* Whether a stop time is a timepoint is lost in merging; it is carried over whole exactly if nothing was said about that
  (`FeedMergeProofs.WholeIffNoTimepoint`).
* The merged feed has valid references, exactly if no feed with routes has a single agency whose blank id is kept while
  the other feed has another agency (`MergedFeeds.MergedFeedOkIff`): its routes then name none of several agencies, as in
  `MergeExamples.AgencyCanBecomeAmbiguous`.
* A field without an old translation can gain one from another row of `trips.txt` or `stop_times.txt`, as in
  `TranslationExamples.PlainTextCanGain`; `Translations.PlainTextGains` says exactly when.
* The comment in `get_point_with_distance_traveled` expects neighbouring points of equal distance where the data are bad;
  the bisection never yields two such points, in whatever order the distances are.
* `get_frequency_start_times` promises a sorted list; it is sorted exactly if the last run of each period that has runs is
  no later than the start of every later one that has any (`TripRuns.SortedIffPeriodsFollow`).  For valid periods this means
  that they were given in order of their starts (`ValidRunsSortedIff`); for overlapping ones that is not enough
  (`OrderedPeriodsUnsorted`).
* A trip without stop times is counted with minus one departure for each run; the counts of departures in
  `TripCounts.GenerateDateTripsDeparturesList` say so.
* With an interval below one, `validate_service_gaps` also reports gaps of no day.  `ServiceGaps.ValidateServiceGaps` says
  exactly when.
* A range of subtags that starts with an `a` loses its first tag, or fails if the number of its start is zero;
  `RegistryRanges.RangeIsExact` has the exact condition.

## Model

| member | source | states |
|---|---|---|
| `Polylines.LengthMeters` | transitfeed/shapelib.py:309-315 | The length of a polyline is the sum of the distances between its successive points. |
| `Polylines.LengthReversed` | transitfeed/shapelib.py:317-319 | Reversing a polyline swaps its ends and keeps its length. |
| `Polylines.MergePolys` | transitfeed/shapelib.py:353-380 | The merged polyline is that of the specification, which the next three rows are about, for any list of polylines and any threshold. |
| `Polylines.MergedPair` | transitfeed/shapelib.py:353-380 | The first point of the second polyline is left out exactly if it is no farther than the threshold from the last point of the first; all others stay, in order. |
| `Polylines.NamesInOrder` | transitfeed/shapelib.py:362 | The joined name of a list in two parts is that of the first part, a semicolon and that of the second. |
| `Polylines.PartsAreNames` | transitfeed/shapelib.py:362 | Names without semicolons are read back from the joined name, all of them and in order. |
| `Polylines.MergedIsJoin` | transitfeed/shapelib.py:353-380 | Two polylines that meet, merged at threshold zero, are joined with the shared point once. |
| `Walks.WithPolyWellFormed` | transitfeed/shapelib.py:445-456 | Adding a polyline files it under its two ends, changes nothing else, and keeps every edge filed under both its ends. |
| `PolyGraphs.PolyGraph.AddPoly` | transitfeed/shapelib.py:402-456 | Unless the name is refused, the node dictionary afterwards is the old one with the polyline at its two ends, and the name dictionary has it under its own name or, if that is taken by a polyline not within ten metres, under a numbered one; if it is refused, nothing changes.  Every polyline of the collection stays an edge of the graph. |
| `Walks.TraceOfWalk` | transitfeed/shapelib.py:517-538 | The polyline of a walk, its edges forward or reversed with each junction once, runs from its first to its last node and is as long as the edges together. |
| `Searches.RelaxCore` | transitfeed/shapelib.py:492-514 | Looking along an edge keeps the invariant: heap and open set hold the same nodes once each, scored nodes are the open and the closed ones, and every back link names a closed node whose score plus the edge's length is the node's score. |
| `Searches.Step` | transitfeed/shapelib.py:485-514 | One turn of the loop keeps the invariant and closes exactly one node, which was not closed before. |
| `SearchProofs.ExpandedOnce` | transitfeed/shapelib.py:485-515 | In every run, the nodes expanded are nodes of the graph, and none is expanded twice. |
| `Heaps.PushInTupleOrder` | transitfeed/shapelib.py:485-514 | Pushing keeps the heap in the order of the pairs of estimate and point, so that a least pair is popped, and adds just the pair pushed. |
| `Polylines.PointOrder` | transitfeed/shapelib.py:68-72 | Points compare by the first coordinate that differs. |
| `SearchProofs.BackIsCheaper` | transitfeed/shapelib.py:517-538 | Each back link leads to an earlier node, so rebuilding the path ends. |
| `SearchProofs.ReconstructIsTrace` | transitfeed/shapelib.py:517-538 | The rebuilt polyline is exactly the polyline of the walk along the back links, points and name. |
| `SearchProofs.FoundIsWalk` | transitfeed/shapelib.py:488-538 | The path returned is the polyline of a walk from start to goal, and its length is the goal's score. |
| `SearchProofs.SearchComplete` | transitfeed/shapelib.py:485-515 | A run that ends without a path has an unreachable goal. |
| `SearchProofs.AnswerSoundAndComplete` | transitfeed/shapelib.py:458-515 | None is returned exactly when no walk leads from start to goal; otherwise the polyline of such a walk, from start to goal unless they are equal, with the names of its edges joined in order. |
| `PolyGraphs.PolyGraph.ShortestPath` | transitfeed/shapelib.py:458-515 | The loop ends and computes that answer; if no open node is improved in the run, no walk is shorter. |
| `PolyGraphs.PolyGraph.ReconstructPath` | transitfeed/shapelib.py:517-538 | The recursion ends and rebuilds the specified path. |
| `SearchOptimality.WalkPassesOpen` | transitfeed/shapelib.py:485-515 | While the closed scores are final, every walk to an unclosed node passes an open one whose estimate is no larger than the walk's cost and the remaining distance. |
| `SearchOptimality.SteadyAnswerIsShortest` | transitfeed/shapelib.py:458-515 | If every node taken has a least up-to-date key, the answer is no longer than any walk. |
| `SearchOptimality.NeverImprovesIsSteady` | transitfeed/shapelib.py:499-514 | A run in which no open node is improved takes only such nodes. |
| `SearchOptimality.AnswerIsShortest` | transitfeed/shapelib.py:458-515 | In a run in which no open node is improved, the answer is no longer than any walk from start to goal. |
| `StaleKeys.StaleKeyMissesShortest` | transitfeed/shapelib.py:510-514 | A graph and a metric for which the answer has length 8 although a walk of cost 3 exists. |
| `HarmlessKeys.StaleKeyCanBeHarmless` | transitfeed/shapelib.py:510-514 | A search in that graph in which an open node is improved and another one is taken before it by its stale key, and whose answer is no longer than any walk. |
| `Beams.AddPathToHeap` | transitfeed/shapelib.py:612-620 | One offer to the heap: nothing for an empty or repeated path, the newcomer in place of the top when full, an error when there is nothing to replace. |
| `Beams.HeapIsKept` | transitfeed/shapelib.py:612-620 | After any offers of different paths the heap holds all of them while there is room, and then exactly the n-1 shortest of all but the last together with the last. |
| `Beams.DroppedIsBeaten` | transitfeed/shapelib.py:612-620 | Every offer that is not in the heap has n-1 different paths in it that are no longer. |
| `Beams.BestOfTwoOrMore` | transitfeed/shapelib.py:606-610 | With room for two, the best path kept is as short as every path offered. |
| `Beams.KeepsShortestIff` | transitfeed/shapelib.py:612-620 | The heap always keeps a shortest offer if and only if it has room for two or more. |
| `PolyGraphs.PolyGraph.FindShortestMultiPointPath` | transitfeed/shapelib.py:540-610 | The path passes in order nodes near all the places, as the polyline of one walk, and is the best of the last beam; the first beam comes from exactly the searches between nodes near the first two places, each later one from exactly the extensions of the paths in the one before to nodes near the next place.  For two places and room for two it is as short as every such search, and there is none only if no two different such nodes are connected. |
| `MultiPoints.BestExtension` | transitfeed/shapelib.py:583-610 | With room for two, the best path of a step is as short as every extension of every path kept in the step before. |
| `MultiPoints.NoWalkIsShorter` | transitfeed/shapelib.py:540-610 | For two places and room for two, the path is no longer than any walk between two different nodes near them whose own search takes only nodes of least up-to-date keys. |
| `Dates.NextDayIsSuccessor` | transitfeed/serviceperiod.py:215-229 | Stepping by a day leaves out no date of the calendar. |
| `Dates.WeekdayAdvances` | transitfeed/serviceperiod.py:188-213 | The weekday of the next day is the next weekday. |
| `Dates.WeekdayIs` | transitfeed/serviceperiod.py:188-213 | The weekday of every date is the number of days stepped from the Monday that the calendar begins with, modulo seven; the first day of 2024 is a Monday, that of 2000 a Saturday. |
| `Dates.MonthLengths` | transitfeed/util.py:444-453 | The lengths of the months, with the leap years. |
| `Dates.ParseReads` | transitfeed/util.py:444-453 | Year, month and day of a date string are the numbers that its first four, next two and last two digits stand for. |
| `Dates.FormatParse` | transitfeed/util.py:444-453 | Formatting a parsed date string gives it back. |
| `Dates.ParseFormat` | transitfeed/util.py:444-453 | Parsing a formatted date gives it back. |
| `Dates.StringOrderIsDateOrder` | transitfeed/serviceperiod.py:188-213 | Comparing two date strings compares the dates. |
| `ServicePeriods.ServicePeriod.SetDateHasService` | transitfeed/serviceperiod.py:122-130 | The date has service or not, as told; every other date is as before. |
| `ServicePeriods.ServicePeriod.IsActiveOn` | transitfeed/serviceperiod.py:188-213 | An exception decides; otherwise the date range and the weekday. |
| `Calendars.RunsByWeekday` | transitfeed/serviceperiod.py:188-213 | On a date in its range without an exception, a service runs exactly if its week has the day, which is the number of days since the first Monday modulo seven. |
| `Calendars.MondaysOnly` | transitfeed/serviceperiod.py:188-213 | A calendar of Mondays only in 2024 is active on January 1st and not on the 2nd. |
| `ServicePeriods.ServicePeriod.GetDateRange` | transitfeed/serviceperiod.py:74-100 | The range's ends bound the given dates and all added dates, and are among them. |
| `Calendars.ActiveWithinRange` | transitfeed/serviceperiod.py:74-100 | No active date falls outside the date range. |
| `ServicePeriods.ServicePeriod.ActiveDates` | transitfeed/serviceperiod.py:215-229 | The list is strictly increasing and holds exactly the dates on which the service is active. |
| `CalendarMerges.DisjoinCalendars` | merge.py:1151-1191 | Each old period keeps exactly its dates before the cutoff, each new one exactly its dates from it on, and their date ranges do not meet, so that the check of disjoint calendars is satisfied. |
| `CalendarMerges.CheckDisjointCalendars` | merge.py:1193-1215 | True exactly if no old period's date range meets a new one's. |
| `Calendars.MeetIffCommonDate` | merge.py:1193-1215 | Two date ranges meet exactly if some date lies in both. |
| `CalendarMerges.AllApartIffAlways` | merge.py:1193-1215 | Whatever the date ranges are taken to be, the check succeeds exactly if every two periods have ranges that do not meet. |
| `Calendars.ApartShareNoDate` | merge.py:1193-1215 | Periods whose date ranges do not meet are never active on the same date. |
| `Blocks.BreakLosesNothing` | transitfeed/schedule.py:1226-1233 | Leaving the inner loop at the first trip that starts late enough loses no report. |
| `Blocks.SortIsStable` | transitfeed/schedule.py:1218-1219 | Trips of one start time stay in their order. |
| `Blocks.ClashIsReported` | transitfeed/schedule.py:1217-1285 | Two trips of a block of which the earlier-starting ends strictly after the later one starts, and whose services are the same or share an active date, are reported. |
| `Blocks.TieIsReported` | transitfeed/schedule.py:1217-1285 | Of two different trips that start at the same time and overlap, one is reported with the other. |
| `Blocks.ReportIsClash` | transitfeed/schedule.py:1217-1285 | Nothing else is reported. |
| `Blocks.DatesOverlap` | transitfeed/schedule.py:1268-1276 | The lists of active dates meet exactly if both services are active on some date. |
| `Blocks.ServicesOverlap` | transitfeed/schedule.py:1249-1280 | The cached answer, across all blocks, is that of the calendars. |
| `Blocks.ValidateBlocks` | transitfeed/schedule.py:1209-1285 | With known services, exactly the reports of the check of all pairs; otherwise a prefix of them. |
| `Ids.GeneratedPostfix` | merge.py:1671-1688 | A generated id ends in exactly the number it was given. |
| `Ids.GeneratedText` | merge.py:1671-1688 | A generated id is the given one, `_merged_` and the decimal digits of the number; without a given one, `merged_` and the digits. |
| `Ids.PostfixIs` | merge.py:1616-1637 | The number that an id ends in is that of all the digits at its end, before a newline at the end if there is one; zero without digits. |
| `Ids.LargestPostfixBounds` | merge.py:1606-1652 | The number found is the largest that any of the ids ends in. |
| `MergeSteps.FindLargestIdPostfixNumber` | merge.py:1606-1652 | No id in the seven id sets of the feed ends in a larger number. |
| `FeedMergers.FeedMerger.constructor` | merge.py:1580-1604 | The id counter starts at the largest number that an id of either feed ends in; the zone maps are empty. |
| `FeedMergers.FeedMerger.GenerateId` | merge.py:1671-1688 | The counter grows by one, the id ends in exactly that number, and it begins with the given id and `_merged_`, or with `merged_`. |
| `SameId.Conservation` | merge.py:509-565 | Every old and every new entity is registered exactly once; merged and not merged add up to both tables. |
| `SameId.OutIdsDistinct` | merge.py:509-565 | The merged table's ids are pairwise different; each is an original id or ends in a number beyond the counter's old value. |
| `SameId.KeepsIdIff` | merge.py:509-565 | An outcome has the id of its entity exactly if two entities were merged or the other table lacks the id. |
| `SameId.PlanIsOk` | merge.py:1690-1718 | The registrations make two maps, from all old and from all new entities, and different outcomes have different ids. |
| `FeedMergers.FeedMerger.MergeSameId` | merge.py:509-565 | The loops make exactly the specified registrations, merge maps, migrated entities and counts. |
| `Zones.ZoneMapsCover` | merge.py:973-1026 | Both zone maps cover the zones of all stops and keep those of merged stops. |
| `Zones.SeparateIffFree` | merge.py:973-1026 | Different zones stay different, and zones of different feeds become one only where stops were merged, if and only if none of the ids that will be generated for the other zones, in order of their first stops, is the id of a kept one. |
| `Zones.BoundedZonesStaySeparate` | merge.py:973-1026 | It suffices that no kept zone id ends in a number beyond the counter. |
| `MergeExamples.ZonesCanBecomeOne` | merge.py:973-1026 | Two feeds in whose merge two zones of one feed become one. |
| `FeedMergers.FeedMerger.UpdateAndMigrateUnmerged` | merge.py:1000-1026 | The zone map is extended by a fresh id for each new zone, and each stop gets what its zone and its parent station map to in the end. |
| `FeedMergers.FeedMerger.MergeStops` | merge.py:973-998 | Stops, zone maps and counter afterwards are those of the specified merge. |
| `FeedMergeProofs.AgencyImage` | merge.py:829-880 | An agency's image has its name, address and time zone, each written out. |
| `MergedRows.AgenciesCorrespond` | merge.py:829-872 | The merged agencies are the images and no others; no two of one feed become one, and an old and a new one do exactly if they have the same id, name, address and time zone. |
| `MergedRows.AgencyCopied` | merge.py:829-880 | A new agency, and an old one that has not become one with a new one, is carried over with all its attributes. |
| `FeedMergeProofs.RouteImage` | merge.py:1042-1067 | A route's image has its names and type, its address and colors where they are given, and belongs to the image of its agency. |
| `MergedRows.RoutesCorrespond` | merge.py:1042-1053 | The merged routes are the images and no others; an old and a new one become one exactly if they have the same id, names and type, their agencies have become one, and address and colors do not differ where both give them. |
| `MergedRows.RouteIsCopied` | merge.py:1042-1067 | A route that has become one with none is as it was but for its agency; a merged one has the new route's attributes, and from the old one an address or color that the new one leaves out. |
| `FeedMergeProofs.ServiceImage` | merge.py:1120-1138 | A service's image has the very same calendar. |
| `MergedRows.ServicesCorrespond` | merge.py:1102-1118 | The merged service periods are the images and no others, and no two service periods become one. |
| `FeedMergeProofs.ShapeImage` | merge.py:1352-1391 | A shape's image is the shape, or for a merged old one a new shape close enough to it. |
| `MergedRows.ShapesCorrespond` | merge.py:1358-1378 | The merged shapes are the images and no others; an old and a new one become one exactly if they have the same id and are no farther apart than the largest distance. |
| `MergedRows.ShapeCopied` | merge.py:1358-1388 | A new shape, and an old one that has not become one with a new one, is carried over point by point. |
| `MergedRows.FareImage` | merge.py:1230-1249 | Every fare of both feeds has an image with its price, currency, payment method, transfers and duration. |
| `MergedRows.FaresMergeIff` | merge.py:1233-1241 | Two fares of one id have one image exactly if these five attributes are the same. |
| `MergedRows.FaresCorrespond` | merge.py:1230-1249 | The merged fares are the images and no others; no two of one feed become one, and an old and a new one do exactly if they have the same id and these five attributes. |
| `FeedMergeProofs.StopImage` | merge.py:920-1026 | A stop's image has its name but for case, its type, its zone's image, stands at its place or close enough, and its parent station is the image of its own, or of its new counterpart's. |
| `MergedRows.StopsCorrespond` | merge.py:920-950 | The merged stops are the images and no others; an old and a new one become one exactly if they have the same id, zone, type and name but for case and are no farther apart than the largest distance. |
| `MergedRows.StopIsCopied` | merge.py:920-956 | A new stop, and an old one that has not become one with a new one, is carried over with all attributes but zone and parent station. |
| `MergedRows.ZoneIsKeptOrFresh` | merge.py:973-1022 | The zone of stops that have become one keeps its id; any other zone's id becomes one that ends in a number beyond the counter. |
| `StopMergeProofs.OwnParentIff` | merge.py:973-1026 | In the whole merge, a stop's image names the image of the stop's own parent station, unless it is a merged old stop; then exactly if both stops have one and the same parent station, itself merged, or none. |
| `StopMergeProofs.OwnParentsIff` | merge.py:973-1026 | All stops' images name the images of their own parent stations exactly if that holds of all pairs of merged stops. |
| `MergeExamples.ParentCanChange` | merge.py:986-989 | Two feeds in whose merge a stop's image does not name the image of the stop's own parent station. |
| `FeedMergeProofs.TripImage` | merge.py:1425-1480 | A trip's image visits the images of its stops in order at the same times, runs at the same intervals, and names the images of its route, service and shape, and its original id exactly if both feeds have it; it never says whether a stop time is a timepoint. |
| `FeedMergeProofs.WholeIffNoTimepoint` | merge.py:1459-1471 | A stop time is carried over whole, but for its stop's name, exactly if it did not say whether it is a timepoint. |
| `FeedMergeProofs.TimetablesPreserved` | merge.py:1760-1772 | Every trip of both feeds is carried into the merged feed: its image is there, preserves it, runs on exactly the same dates, and the route, the agency, the shape and the stops that it refers to are there and preserve the original ones. |
| `FeedMergeProofs.TripsCorrespond` | merge.py:1425-1495 | The trips of the merged feed are exactly the images of the trips of both feeds, and no two trips have the same one. |
| `MergedFeeds.MergedFeedOkIff` | merge.py:1042-1067 | All references of the merged feed are valid exactly if no feed with routes has a single agency whose blank id is kept while the other feed has another agency. |
| `MergeExamples.AgencyCanBecomeAmbiguous` | merge.py:1053-1064 | Two feeds whose merge has a route without an agency and two agencies. |
| `FeedMergeProofs.BlocksStayApart` | merge.py:1449-1452 | Two images are in one block exactly if the trips come from one feed and were in one block. |
| `StopMergeProofs.ZonesStayApart` | merge.py:973-1026 | For the whole merge, zones stay apart exactly if no id that will be generated for the zone of an unmerged stop, counted from the ids given out before, is the id of a zone of merged ones. |
| `FeedMergeProofs.RulesAreImages` | merge.py:1519-1556 | The merged fare rules are exactly the images of both feeds' rules, each through its own maps and its own zone map. |
| `FeedMergers.FeedMerger.MergeFareRules` | merge.py:1519-1556 | The loops collect exactly those rules. |
| `FeedMergers.FeedMerger.MergeSchedules` | merge.py:1760-1772 | Running all mergers yields the specified merge, which the rows from the images of the agencies on are about, or stops at the service periods if disjoint calendars are required and the date ranges of two of the feeds' periods meet. |
| `TableTranslators.ReadTranslations` | upgrade_translations.py:207-220 | For each id and language, the last line decides. |
| `TableTranslators.FindContextDependentNames` | upgrade_translations.py:222-252 | Exactly the names that two or more translation ids share; an error if an id has no text in the feed's language. |
| `Translations.ValuesAgree` | upgrade_translations.py:342-379 | Two translations kept for one field, language and value are the same. |
| `Translations.KeyUntranslated` | upgrade_translations.py:122-178 | Translating a row never changes its record id. |
| `Translations.KeyIdentifies` | upgrade_translations.py:79-95 | The record id and sub-id by which a row is named are what it has in the columns listed for its table, written out for the fifteen tables; for any other table, what it has in the first column that ends in `_id`, and a blank sub-id. |
| `Translations.FromRowIff` | upgrade_translations.py:342-379 | What is written for a row is exactly what says, in another language than the feed's, the text of one of its fields that ends in one of the eight ways: by the row's record id, or in `stop_times` and `trips` by the field's value unless two translation ids have that name. |
| `TableTranslators.TableTranslator.TranslateRow` | upgrade_translations.py:342-379 | The row gets the names of its translation ids and nothing else changes; what has been written and kept grows by exactly what is to be said about the row. |
| `TableTranslators.TableTranslator.WriteForFieldValues` | upgrade_translations.py:381-394 | Everything kept is written, and the counter counts what was written. |
| `TableTranslators.ConvertTranslations` | upgrade_translations.py:262-314 | What is written is exactly what is to be said about the tables' rows, each by its record id or by its value, and every row is upgraded. |
| `Translations.TranslationPreserved` | upgrade_translations.py:342-390 | For a row whose record id, in the columns written out, no other row has, a field with an old translation and another language than the feed's, looking the field up gives the old translation, or none if there was none. |
| `Translations.MeaningPreserved` | upgrade_translations.py:342-390 | In every language the upgraded field displays what the old one did. |
| `Translations.PlainTextGains` | upgrade_translations.py:342-390 | A field without an old translation gains one exactly if the table is keyed by values and another row's field has its text as a name that is not context-dependent and is translated. |
| `TranslationExamples.PlainTextCanGain` | upgrade_translations.py:342-390 | Two trips of which the second, whose headsign is plain text, gains a translation. |
| `Interpolations.GetTimeInterpolatedStops` | transitfeed/trip.py:168-217 | One entry for each stop, timed stops at their times, the others at the second that is nearest to the linear estimate between the surrounding timepoints, of two at the even one; an error exactly if an end is untimed or an untimed stop lies on a stretch of no distance. |
| `Interpolations.RoundIffNearest` | transitfeed/trip.py:214-215 | A guess is rounded to a whole second no more than half a second away, and to the even one if two are. |
| `Interpolations.GuessIsBetween` | transitfeed/trip.py:209-214 | After rounding, a guess lies between the surrounding times. |
| `Interpolations.TimesNeverDecrease` | transitfeed/trip.py:168-217 | If the given times do not decrease, neither do the times given and guessed. |
| `ShapePoints.BisectSplits` | transitfeed/shape.py:149 | Even in an unsorted list, the member before the place found is not above the value and the member at it is. |
| `ShapePoints.Shape.AddShapePointObjectUnsorted` | transitfeed/shape.py:55-97 | The point goes in after all points up to its sequence number, or before all if it repeats the first one's and not the last one's; all others stay, the lists stay aligned and sorted, the maximum stays the largest distance; distances stay monotone exactly if no problem with them is reported. |
| `ShapePoints.Shape.GetPointWithDistanceTraveled` | transitfeed/shape.py:130-171 | A point is found unless there are none: an end point, or one on the line between the two points whose distances surround the given one. |
| `ShapePoints.PointIsBetween` | transitfeed/shape.py:149-171 | The point found is between its neighbours in both coordinates, and divides the way from one to the other as the given distance does that between theirs. |
| `ShapePoints.ExactAtKnots` | transitfeed/shape.py:130-171 | With sorted distances, looking up a point's own distance gives a point of the shape of that distance. |
| `TripRuns.GetFrequencyStartTimes` | transitfeed/trip.py:329-345 | The runs of each period in turn; as many as its length over the headway, rounded up. |
| `TripRuns.RunsAre` | transitfeed/trip.py:329-345 | The start times are exactly those that lie in some period at a whole number of headways from its start. |
| `TripRuns.ValidateFrequencies` | transitfeed/trip.py:691-699 | Exactly one problem for each two places with overlapping periods, in order. |
| `TripRuns.OverlapIffCommonSecond` | transitfeed/trip.py:691-699 | Two nonempty periods overlap exactly if some second lies in both; periods that touch do not. |
| `TripRuns.RunsAreDistinct` | transitfeed/trip.py:691-699 | If validation reports nothing, no two runs start at the same time. |
| `TripRuns.SortedIffPeriodsFollow` | transitfeed/trip.py:329-345 | The start times increase, strictly or not, exactly if of every two periods with runs the last run of the earlier one precedes the start of the later one. |
| `TripRuns.ValidRunsSortedIff` | transitfeed/trip.py:329-345 | For nonempty periods that do not overlap, that is exactly if they are in order of their starts. |
| `TripRuns.OrderedPeriodsUnsorted` | transitfeed/trip.py:329-345 | Two overlapping periods in order whose start times are not sorted. |
| `TripCounts.GetServicePeriodsActiveEachDate` | transitfeed/schedule.py:309-334 | Each date of the range once, in order, with exactly the services that are active. |
| `TripCounts.CountsAreConserved` | transitfeed/schedule.py:766-799 | Summed over the dates, the day totals equal the sum over the trips of known services of their weight times the dates their service is active. |
| `TripCounts.TripAdds` | transitfeed/schedule.py:781-790 | On each date on which its service is active, one more trip without start times adds one trip and a departure for each stop but the last; one with start times adds that for each of them; on other dates nothing. |
| `TripCounts.DayTotalsCount` | transitfeed/schedule.py:766-799 | A day's totals are the number of runs made on it, and of departures from all stops but the last. |
| `TripCounts.RangeTotalsCount` | transitfeed/schedule.py:766-799 | The totals over the dates are the numbers of dates and runs, and of dates, runs and stops but the last. |
| `TripCounts.GenerateDateTripsDeparturesList` | transitfeed/schedule.py:766-799 | Each date's trips and departures are the runs made on it and their departures, counted as sets; both sums over the dates are conserved, and count each run and each departure once for each date. |
| `ServiceGaps.ValidateServiceGaps` | transitfeed/schedule.py:854-907 | Reports exactly the maximal runs of days without trips of at least the interval, in order, with first day, last day and count; and only runs of a day or more exactly if the interval is at least one or there is no place for an empty run. |
| `RegistryRanges.IntToLetters` | extensions/googletransit/pybcp47/bcp47languageparser.py:140-150 | Converting to a number and back gives the string exactly if it does not start with an a. |
| `RegistryRanges.OrderIsAlphabetic` | extensions/googletransit/pybcp47/bcp47languageparser.py:140-142 | For strings of one length the numbers' order is the alphabet's. |
| `RegistryRanges.ExpandRange` | extensions/googletransit/pybcp47/bcp47languageparser.py:165-187 | The tags are the strings of the numbers from start to end, each once; the errors for different lengths, other characters and an empty tag. |
| `RegistryRanges.RangeIsExact` | extensions/googletransit/pybcp47/bcp47languageparser.py:165-187 | The tags are all and only the strings from start to end in alphabetic order, as section 3.1.1 of RFC 5646 defines ranges, exactly if the range does not start with an a or is empty. |
| `BoundedLists.TakeInsert` | feedvalidator.py:169-190 | Inserting into the best n and dropping the rest keeps the best n of all. |
| `BoundedLists.SortIsStable` | feedvalidator.py:176-190 | Problems of one significance stay in the order in which they came. |
| `BoundedLists.BoundedProblemList.Add` | feedvalidator.py:176-190 | After each problem the list holds the most significant of all problems so far in order, or the first ones if they cannot be compared. |
| `BoundedLists.BoundedProblemList.DroppedCount` | feedvalidator.py:192-204 | The dropped count is what the stream has beyond the bound. |
| `BoundedLists.HoldsBest` | feedvalidator.py:169-208 | What was dropped ranks no better than anything kept, and is as much as the dropped count says. |
| `BoundedLists.GetNearestStops` | transitfeed/schedule.py:581-592 | The n smallest distances in order; an error if n is below one and there are stops. |

## Left out

- Reading and writing files, archives, HTML, SVG and KML, command lines and problem texts: input, output and presentation.
- Trigonometry and floating point: the distance is an abstract metric over the reals.
- The greedy distance by which duplicate polylines are told apart is a parameter, and `find_matching_polys`, which lists the polylines with ends near two points, is left out.
- Edges of equal points and name count as one edge of the graph; the program keeps equal polyline objects apart.
- The assertions that points have unit length: true of all points made from coordinates.
- SearchOptimality.SteadyAnswerIsShortest: the hypothesis is sufficient, not necessary, because a stale key can be harmless, as in `HarmlessKeys.StaleKeyCanBeHarmless`.
- PolyGraphs.PolyGraph.FindShortestMultiPointPath: for three or more places the path is valid, but the beam is greedy and no shortest path is promised.
- ServicePeriods.ServicePeriod.ActiveDates: covers the years 1900 to 2100, the only ones that validation accepts.
- CalendarMerges.DisjoinCalendars: the cutoff is not the first date of year 1, before which there is none; and the padding of years below 1000 by `strftime` is taken to be with zeros.
- FeedMergers.FeedMerger.MergeSchedules: the feeds are values, and the service period objects that the check looks at come beside them; the reports of the mergers are not modelled.
- `TransferMerger` and `_merge_different_id`: not among the default mergers.
- How the merge measures the distance of two stops, or of the ends of two shapes, and folds letter case: parameters of the model.
- Copied attributes of stops, routes and trips that merging never looks at are one field.
- Translations.TranslationPreserved: assumes that no other row of the table has the row's record id, as the format demands.
- BoundedLists.GetNearestStops: ties between equally distant stops stay in order of arrival; the order of stop objects is not modelled.
- The SQLite store behind stop times: a sequence in the order of `stop_sequence`.
- `get_frequency_stop_times`, per-field validators, `clear_points` and the well-formedness expression of BCP 47: single steps, or library expressions.
