# RevitLookup core, modelled in Dafny

RevitLookup is a Revit add-in for inspecting the Revit database. It "decomposes" any
object into its members. For each member it shows one or more *variants*: the values
the member takes under different arguments, each with a label. The part of the
add-in that decides what gets shown is a set of **descriptors**. A descriptor's
`Resolve(target, parameters)` picks, by member name, either a resolver that produces
the variants, `Variants.Disabled` (never invoke the member), or `null` (let the
engine use reflection). Its `RegisterExtensions` adds extra members. Around the
descriptors, the model covers:

- the WPF presentation helpers: member icons, byte sizes, the tooltips of the tree
  and the grid, and the snackbar notification service;
- the tool pages: units, modules and font icons, with their search filters;
- the settings service, with its defaults and its load/save protocol;
- the observable Revit.ini entry;
- the curve-loop visualisation's vertex collection;
- the installer's version computation;
- the release-version parsing of the build.

Host data is modelled as values. Enumerations, element ids, schemas and parameters
are datatypes. The Revit API calls a resolver makes are function-typed inputs, so
each contract states exactly which calls are made, in which order, and how every
answer is labelled. Resolvers that loop become `method`s with loop invariants,
proved against a specification function. Objects whose fields the source updates
become classes: the INI entry, the notification service, the settings service and
the three tool pages. The conditional compilation is fixed at Revit 2024
(`REVIT2024_OR_GREATER` defined, `REVIT2025_OR_GREATER` not) on .NET Framework.

Shared modules:

- `Wrappers`: `Option` and `Result`.
- `Text`: decimal printing and parsing, `Split`/`Join`, trimming, and case-insensitive `Contains`.
- `Sequences`: the order-preserving `Filter` and `Map` behind every search loop.
- `Engine`: the `Variants` builder, `Resolution` and the extension manager.
- `Host`: element ids and enumeration members.
- `Probes`: the shared "one host query per enum member" loop.

## Model

| member | source | states |
|---|---|---|
| ElementDescriptor.Name | source/RevitLookup/Core/Summary/Descriptors/ElementDescriptor.cs:35 | An unnamed element shows "ID{id}". A named one shows its name, then ", ID{id}". |
| ElementDescriptor.NameEndsWithId | source/RevitLookup/Core/Summary/Descriptors/ElementDescriptor.cs:35 | Every display name ends with "ID{id}", whatever the element's name. |
| ElementDescriptor.Resolve | source/RevitLookup/Core/Summary/Descriptors/ElementDescriptor.cs:38-59 | Only names from the table resolve (never `Disabled`). A resolved factory's member name equals the target. |
| ElementDescriptor.ResolveMemberName | source/RevitLookup/Core/Summary/Descriptors/ElementDescriptor.cs:40-58 | Each of the fourteen resolvers, including the two 2022+ phase-order ones, is reached by its own member name. |
| ElementDescriptor.ResolveInActiveView | source/RevitLookup/Core/Summary/Descriptors/ElementDescriptor.cs:195-203 | `CanBeHidden` and `IsHidden` show the host's answer for the active view as one value labelled "Active view". |
| ElementDescriptor.ResolveGetDependentElements | source/RevitLookup/Core/Summary/Descriptors/ElementDescriptor.cs:205-208 | One unlabelled value: the dependent elements the host reports for a null filter, that is, all of them. |
| ElementDescriptor.ResolveGetMaterialIds | source/RevitLookup/Core/Summary/Descriptors/ElementDescriptor.cs:179-185 | Two variants: paint materials, then geometry and compound-structure materials, with their labels. |
| ElementDescriptor.ResolveBoundingBox | source/RevitLookup/Core/Summary/Descriptors/ElementDescriptor.cs:187-193 | The model box ("Model", no view) comes before the active-view box ("Active view"). |
| ElementDescriptor.ResolveGeometry | source/RevitLookup/Core/Summary/Descriptors/ElementDescriptor.cs:118-177 | Ten variants, the k-th being the geometry under the k-th option set with its label. |
| ElementDescriptor.GeometryRequestsDistinct | source/RevitLookup/Core/Summary/Descriptors/ElementDescriptor.cs:120-175 | The ten option sets and labels are pairwise distinct. All compute references. Exactly the first two use the active view and leave the detail level unset. |
| ElementDescriptor.ResolveGetMaterialArea | source/RevitLookup/Core/Summary/Descriptors/ElementDescriptor.cs:61-83 | Empty iff both material lists are empty. Otherwise there is one (id, area) entry per geometry material, then one per paint material, in order. |
| ElementDescriptor.ResolveGetMaterialVolume | source/RevitLookup/Core/Summary/Descriptors/ElementDescriptor.cs:85-99 | Empty iff there are no geometry materials. Otherwise there is one (id, volume) entry per material, in order. |
| ElementDescriptor.ResolveGetEntity | source/RevitLookup/Core/Summary/Descriptors/ElementDescriptor.cs:101-116 | The result is the filter of the schemas (readable, valid entity), each labelled with its schema name. |
| ElementDescriptor.GetEntityShows | source/RevitLookup/Core/Summary/Descriptors/ElementDescriptor.cs:105-113 | A schema is shown iff it is listed, readable and yields a valid entity. |
| ElementDescriptor.ResolvePhases | source/RevitLookup/Core/Summary/Descriptors/ElementDescriptor.cs:210-274 | One entry per document phase, in order, with the query's result labelled "{phase}: {result}". |
| ElementDescriptor.RegisterExtensions | source/RevitLookup/Core/Summary/Descriptors/ElementDescriptor.cs:279-291 | Appends exactly the ten extension names, in registration order. |
| ElementIdDescriptor.Name | source/RevitLookup/Core/Decomposition/Descriptors/ElementIdDescriptor.cs:27 | The name is the id's decimal text, and it is never empty. |
| ElementIdDescriptor.NameInjective | source/RevitLookup/Core/Decomposition/Descriptors/ElementIdDescriptor.cs:27 | Distinct ids have distinct names. |
| ElementIdDescriptor.TryRedirect | source/RevitLookup/Core/Decomposition/Descriptors/ElementIdDescriptor.cs:30-56 | No redirect for the `Id` member or the invalid id, and the result stays the id itself. Otherwise a category-range id redirects iff the category exists, and any other id iff the element exists. |
| EnumeratorDescriptor.Create | source/RevitLookup/Core/Decomposition/Descriptors/EnumeratorDescriptor.cs:26-37 | The current item is kept iff reading `Current` gave an item. Null and a thrown exception both leave it unset. |
| EnumeratorDescriptor.TryRedirect | source/RevitLookup/Core/Decomposition/Descriptors/EnumeratorDescriptor.cs:39-49 | Redirects iff there is a current item, to that item. Otherwise the result is the enumerator itself. |
| EnumeratorDescriptor.TargetIrrelevant | source/RevitLookup/Core/Decomposition/Descriptors/EnumeratorDescriptor.cs:39-49 | The target member name plays no part in the redirect. |
| EnumeratorDescriptor.CreateThenRedirect | source/RevitLookup/Core/Decomposition/Descriptors/EnumeratorDescriptor.cs:26-49 | Constructing and then redirecting succeeds iff `Current` gave an item, and leads to that item. |
| Probes.ProbeEnum | source/RevitLookup/Core/Decomposition/Descriptors/IndependentTagDescriptor.cs:39-51 | One entry per enum member, in `Enum.GetValues` order, labelled "{member}: {answer}". |
| Probes.AnswerLabelNamesMember | source/RevitLookup/Core/Decomposition/Descriptors/IndependentTagDescriptor.cs:47 | A probe label starts with its member's name. |
| RevitLinkTypeDescriptor.Resolve | source/RevitLookup/Core/Decomposition/Descriptors/RevitLinkTypeDescriptor.cs:23-31 | `Load` and `Reload` are disabled. `IsLoaded` resolves. Nothing else does. |
| RevitLinkTypeDescriptor.HidesElementResolvers | source/RevitLookup/Core/Decomposition/Descriptors/RevitLinkTypeDescriptor.cs:23-31 | The override does not fall back to the element resolvers: every element member name gives null. |
| RevitLinkTypeDescriptor.ResolveIsLoaded | source/RevitLookup/Core/Decomposition/Descriptors/RevitLinkTypeDescriptor.cs:33-36 | One unlabelled value: the host's answer. |
| RevitLinkTypeDescriptor.RegisterExtensions | source/RevitLookup/Core/Decomposition/Descriptors/RevitLinkTypeDescriptor.cs:39-41 | Registers nothing, which hides the element extensions. |
| WallDescriptor.Resolve | source/RevitLookup/Core/Decomposition/Descriptors/WallDescriptor.cs:23-31 | Only `IsWallCrossSectionValid` resolves. |
| WallDescriptor.HidesElementResolvers | source/RevitLookup/Core/Decomposition/Descriptors/WallDescriptor.cs:23-31 | Element member names give null for a wall. |
| WallDescriptor.ResolveIsWallCrossSectionValid | source/RevitLookup/Core/Decomposition/Descriptors/WallDescriptor.cs:33-45 | One entry per cross-section value, in order, labelled "{value}: {result}". |
| WallDescriptor.RegisterExtensions | source/RevitLookup/Core/Decomposition/Descriptors/WallDescriptor.cs:49-52 | Appends exactly `IsWallJoinAllowedAtEnd`. |
| WallDescriptor.ResolveIsWallJoinAllowedAtEnd | source/RevitLookup/Core/Decomposition/Descriptors/WallDescriptor.cs:54-63 | End 0 labelled "Start: …", then end 1 labelled "End: …". |
| MepSystemDescriptor.Resolve | source/RevitLookup/Core/Decomposition/Descriptors/MepSystemDescriptor.cs:24-31 | Exactly `GetSectionByIndex` and `GetSectionByNumber` resolve, each to its own resolver. |
| MepSystemDescriptor.HidesElementResolvers | source/RevitLookup/Core/Decomposition/Descriptors/MepSystemDescriptor.cs:24-31 | Element member names give null for an MEP system. |
| MepSystemDescriptor.ResolveSectionByNumber | source/RevitLookup/Core/Decomposition/Descriptors/MepSystemDescriptor.cs:33-44 | One entry per section index below `SectionsCount`, labelled "Number {section number}". |
| MepSystemDescriptor.ResolveSectionByIndex | source/RevitLookup/Core/Decomposition/Descriptors/MepSystemDescriptor.cs:46-57 | One entry per section index, labelled "Index {i}". |
| MepSystemDescriptor.IndexLabelInjective | source/RevitLookup/Core/Decomposition/Descriptors/MepSystemDescriptor.cs:53 | Different indices get different labels. |
| MepSystemDescriptor.RegisterExtensions | source/RevitLookup/Core/Decomposition/Descriptors/MepSystemDescriptor.cs:60-62 | Registers nothing. |
| IndependentTagDescriptor.Resolve | source/RevitLookup/Core/Decomposition/Descriptors/IndependentTagDescriptor.cs:23-37 | Each of the five names (2022 and 2023 ones included) resolves to its own resolver, and nothing else resolves. |
| IndependentTagDescriptor.HidesElementResolvers | source/RevitLookup/Core/Decomposition/Descriptors/IndependentTagDescriptor.cs:23-37 | Element member names give null for a tag. |
| IndependentTagDescriptor.ResolveLeaderEndCondition | source/RevitLookup/Core/Decomposition/Descriptors/IndependentTagDescriptor.cs:39-51 | One labelled answer per leader end condition, in order. |
| IndependentTagDescriptor.ResolveLeaderElbow | source/RevitLookup/Core/Decomposition/Descriptors/IndependentTagDescriptor.cs:53-69 | The elbows of the tagged references whose leader is visible and has an elbow, in reference order. |
| IndependentTagDescriptor.ResolveLeaderEnd | source/RevitLookup/Core/Decomposition/Descriptors/IndependentTagDescriptor.cs:71-85 | The leader ends of the references whose leader is visible, in order. |
| IndependentTagDescriptor.ResolveHasLeaderElbow | source/RevitLookup/Core/Decomposition/Descriptors/IndependentTagDescriptor.cs:87-100 | `HasLeaderElbow` for each reference with a visible leader, in order. |
| IndependentTagDescriptor.ResolveIsLeaderVisible | source/RevitLookup/Core/Decomposition/Descriptors/IndependentTagDescriptor.cs:104-115 | One unlabelled visibility answer per tagged reference. |
| IndependentTagDescriptor.ElbowsAmongEnds | source/RevitLookup/Core/Decomposition/Descriptors/IndependentTagDescriptor.cs:53-85 | The references listed for elbows are an ordered subsequence of those listed for ends, so there are never more elbows than ends. |
| IndependentTagDescriptor.LeaderEndListed | source/RevitLookup/Core/Decomposition/Descriptors/IndependentTagDescriptor.cs:76-82 | A reference gets a leader end iff it is tagged and its leader is visible. |
| IndependentTagDescriptor.RegisterExtensions | source/RevitLookup/Core/Decomposition/Descriptors/IndependentTagDescriptor.cs:119-121 | Registers nothing. |
| SpatialElementDescriptor.Resolve | source/RevitLookup/Core/Decomposition/Descriptors/SpatialElementDescriptor.cs:23-29 | Only `GetBoundarySegments` resolves. |
| SpatialElementDescriptor.HidesElementResolvers | source/RevitLookup/Core/Decomposition/Descriptors/SpatialElementDescriptor.cs:23-29 | Element member names give null for a spatial element. |
| SpatialElementDescriptor.Requested | source/RevitLookup/Core/Decomposition/Descriptors/SpatialElementDescriptor.cs:33-74 | One entry per request: the segments under its options, with its label. |
| SpatialElementDescriptor.ResolveGetBoundarySegmentsAsWritten | source/RevitLookup/Core/Decomposition/Descriptors/SpatialElementDescriptor.cs:31-75 | As written: eight requests, all with `StoreFreeBoundaryFaces = true`. |
| SpatialElementDescriptor.AsWrittenRepeatsRequests | source/RevitLookup/Core/Decomposition/Descriptors/SpatialElementDescriptor.cs:54-73 | Entries 4-7 repeat the values of entries 0-3. The fifth label does not describe its options. |
| SpatialElementDescriptor.ResolveGetBoundarySegments | source/RevitLookup/Core/Decomposition/Descriptors/SpatialElementDescriptor.cs:31-75 | Corrected: the four locations with free faces stored, then the same four without. |
| SpatialElementDescriptor.RequestsTruthful | source/RevitLookup/Core/Decomposition/Descriptors/SpatialElementDescriptor.cs:33-73 | In the corrected table every label claims free faces iff its options store them. |
| SpatialElementDescriptor.RequestsDistinct | source/RevitLookup/Core/Decomposition/Descriptors/SpatialElementDescriptor.cs:33-73 | The corrected eight option sets are pairwise distinct, and request k+4 has the location of request k. |
| SpatialElementDescriptor.RegisterExtensions | source/RevitLookup/Core/Decomposition/Descriptors/SpatialElementDescriptor.cs:78-80 | Registers nothing. |
| ParameterDescriptor.Name | source/RevitLookup/Core/Decomposition/Descriptors/ParameterDescriptor.cs:38 | The descriptor is named after the parameter's definition. |
| ParameterDescriptor.Resolve | source/RevitLookup/Core/Decomposition/Descriptors/ParameterDescriptor.cs:41-48 | `ClearValue` is disabled. No name gets a factory. |
| ParameterDescriptor.ExtensionNames | source/RevitLookup/Core/Decomposition/Descriptors/ParameterDescriptor.cs:50-69 | `AsBool` and `AsColor` appear iff the storage type is Integer. `GetAssociatedFamilyParameter` appears iff the document is a family document. Nothing else appears. |
| ParameterDescriptor.RegisterExtensions | source/RevitLookup/Core/Decomposition/Descriptors/ParameterDescriptor.cs:50-69 | Appends exactly those names. |
| ParameterDescriptor.EditAvailable | source/RevitLookup/Core/Decomposition/Descriptors/ParameterDescriptor.cs:75 | The "Edit value" item is available iff the parameter is writable and its storage type is not None. |
| ForgeTypeIdDescriptor.Name | source/RevitLookup/Core/Decomposition/Descriptors/ForgeTypeIdDescriptor.cs:28 | The descriptor is named by the identifier's `TypeId` string. |
| ForgeTypeIdDescriptor.Resolve | source/RevitLookup/Core/Decomposition/Descriptors/ForgeTypeIdDescriptor.cs:31-38 | `Clear` without parameters is disabled. No name gets a factory. |
| ForgeTypeIdDescriptor.ExtensionNames | source/RevitLookup/Core/Decomposition/Descriptors/ForgeTypeIdDescriptor.cs:40-58 | Twelve pairwise-distinct names, seven of them added for 2022 and later. |
| ForgeTypeIdDescriptor.RegisterExtensions | source/RevitLookup/Core/Decomposition/Descriptors/ForgeTypeIdDescriptor.cs:40-58 | Appends exactly those twelve names. |
| DocumentDescriptor.Name | source/RevitLookupObsolete/Core/ComponentModel/Descriptors/DocumentDescriptor.cs:40 | The descriptor is named by the document title. |
| DocumentDescriptor.Resolve | source/RevitLookupObsolete/Core/ComponentModel/Descriptors/DocumentDescriptor.cs:43-55 | `Close()` is disabled. `PlanTopologies()` resolves only without parameters. The other three names resolve with any parameters. |
| DocumentDescriptor.ResolvePlanTopologies | source/RevitLookupObsolete/Core/ComponentModel/Descriptors/DocumentDescriptor.cs:57-67 | Empty iff the document is read-only. Otherwise a single unlabelled topology set. |
| DocumentDescriptor.ResolveGetUnusedElements | source/RevitLookupObsolete/Core/ComponentModel/Descriptors/DocumentDescriptor.cs:91-94 | A single unlabelled value: `GetUnusedElements` with an empty exclusion set, asked of the resolver's context document. |
| DocumentDescriptor.ResolveGetAllUnusedElements | source/RevitLookupObsolete/Core/ComponentModel/Descriptors/DocumentDescriptor.cs:96-99 | A single unlabelled value: `GetAllUnusedElements` with an empty exclusion set, asked of the context document. |
| DocumentDescriptor.UnusedQueriesDistinct | source/RevitLookupObsolete/Core/ComponentModel/Descriptors/DocumentDescriptor.cs:91-99 | The two members show the same value iff the host's two queries agree, so neither member stands in for the other. |
| DocumentDescriptor.ResolveDefaultElementTypeId | source/RevitLookupObsolete/Core/ComponentModel/Descriptors/DocumentDescriptor.cs:69-88 | Throws a null dereference iff some group names a default type id whose element is missing. Otherwise there is one labelled entry per group, in order. |
| DocumentDescriptor.DefaultTypeLabel | source/RevitLookupObsolete/Core/ComponentModel/Descriptors/DocumentDescriptor.cs:77-84 | A group naming a real type is labelled with the type's name. Otherwise the label shows the id itself. |
| DocumentDescriptor.ExtensionNames | source/RevitLookupObsolete/Core/ComponentModel/Descriptors/DocumentDescriptor.cs:103-125 | Starts with the five common managers. The size-table and light-family extensions appear iff the document is a family document. |
| DocumentDescriptor.RegisterExtensions | source/RevitLookupObsolete/Core/ComponentModel/Descriptors/DocumentDescriptor.cs:103-125 | Appends exactly those names. |
| EntityDescriptor.Resolve | source/RevitLookup/Core/Decomposition/Descriptors/EntityDescriptor.cs:24-34 | `Get(string)` and `Get(string, ForgeTypeId)` are told apart by their parameter types. Any other overload gives null. |
| EntityDescriptor.MakeGenericInvoker | source/RevitLookup/Core/Decomposition/Descriptors/EntityDescriptor.cs:90-101 | Simple gives the value type, Array a list of it, Map a dictionary. An undefined container throws `ArgumentOutOfRangeException`. |
| EntityDescriptor.GetValidUnit | source/RevitLookup/Core/Decomposition/Descriptors/EntityDescriptor.cs:67-88 | A non-measurable spec gives Custom. A measurable one gives its first valid unit, or `First()`'s error when there is none. |
| EntityDescriptor.ResolveGetByField | source/RevitLookup/Core/Decomposition/Descriptors/EntityDescriptor.cs:36-48 | Fails iff some field has an undefined container, with the first such field's error. Otherwise there is one value per field, labelled with the field name. |
| EntityDescriptor.ResolveGetByFieldForge | source/RevitLookup/Core/Decomposition/Descriptors/EntityDescriptor.cs:50-64 | Fails iff some field's unit or container fails, with the first failure. Otherwise each field is read in its valid unit. |
| TableDataDescriptor.Resolve | source/RevitLookup/Core/Decomposition/Descriptors/TableDataDescriptor.cs:23-33 | The two `GetSectionData` overloads are told apart by parameter type. `IsValidZoomLevel` resolves too. |
| TableDataDescriptor.ResolveSectionDataBySectionType | source/RevitLookup/Core/Decomposition/Descriptors/TableDataDescriptor.cs:35-45 | One entry per section type, labelled with its name. |
| TableDataDescriptor.ResolveSectionDataByIndex | source/RevitLookup/Core/Decomposition/Descriptors/TableDataDescriptor.cs:47-56 | One entry per section index, labelled with the index. |
| TableDataDescriptor.Scan | source/RevitLookup/Core/Decomposition/Descriptors/TableDataDescriptor.cs:62-78 | The zoom scan lists valid levels only, in strictly increasing order. |
| TableDataDescriptor.ZoomLevels | source/RevitLookup/Core/Decomposition/Descriptors/TableDataDescriptor.cs:58-81 | The same holds for the whole scan from zoom 0. |
| TableDataDescriptor.ResolveZoomLevel | source/RevitLookup/Core/Decomposition/Descriptors/TableDataDescriptor.cs:58-81 | The loop's variants are the zoom levels the scan finds, each labelled "{zoom}: valid". |
| TableDataDescriptor.ScanSound | source/RevitLookup/Core/Decomposition/Descriptors/TableDataDescriptor.cs:64-78 | Every reported level is reached before 50 consecutive invalid levels. |
| TableDataDescriptor.ScanComplete | source/RevitLookup/Core/Decomposition/Descriptors/TableDataDescriptor.cs:64-78 | Every valid level reached before such a gap is reported. |
| TableDataDescriptor.ZoomLevelRecorded | source/RevitLookup/Core/Decomposition/Descriptors/TableDataDescriptor.cs:58-81 | A level is listed iff it is valid and no run of 50 invalid levels precedes it. |
| CurtainGridDescriptor.Resolve | source/RevitLookup/Core/Decomposition/Descriptors/CurtainGridDescriptor.cs:23-30 | `GetCell` and `GetPanel` resolve, each to its own resolver. |
| CurtainGridDescriptor.WithBorder | source/RevitLookup/Core/Decomposition/Descriptors/CurtainGridDescriptor.cs:34-37 | The grid-line ids, followed by the invalid id. |
| CurtainGridDescriptor.CellLabelInjective | source/RevitLookup/Core/Decomposition/Descriptors/CurtainGridDescriptor.cs:46 | Different (u, v) pairs get different "U {u}, V {v}" labels. |
| CurtainGridDescriptor.ResolveCells | source/RevitLookup/Core/Decomposition/Descriptors/CurtainGridDescriptor.cs:32-51 | One cell per (u, v) pair of the bordered id lists, u-major, each labelled with its pair. |
| CurtainGridDescriptor.CellsLayout | source/RevitLookup/Core/Decomposition/Descriptors/CurtainGridDescriptor.cs:38-48 | There are (U+1)·(V+1) cells, and pair (i, j) sits at index i·(V+1)+j. |
| CurtainGridDescriptor.InGrid | source/RevitLookup/Core/Decomposition/Descriptors/CurtainGridDescriptor.cs:41-48 | Every pair of bordered ids is visited. |
| CurtainGridDescriptor.ResolvePanels | source/RevitLookup/Core/Decomposition/Descriptors/CurtainGridDescriptor.cs:53-72 | Throws a null dereference iff some pair has no panel. Otherwise there is one panel per pair, labelled with its name and id. |
| FamilySizeTableDescriptor.Resolve | source/RevitLookup/Core/Decomposition/Descriptors/FamilySizeTableDescriptor.cs:23-30 | `GetColumnHeader` and `IsValidColumnIndex` resolve, each to its own resolver. |
| FamilySizeTableDescriptor.ResolveColumnHeader | source/RevitLookup/Core/Decomposition/Descriptors/FamilySizeTableDescriptor.cs:32-43 | One unlabelled header per column index. |
| FamilySizeTableDescriptor.ResolveIsValidColumnIndex | source/RevitLookup/Core/Decomposition/Descriptors/FamilySizeTableDescriptor.cs:45-57 | Indices 0 to `NumberOfColumns` inclusive, one past the end included, each labelled "{i}: {result}". |
| FamilySizeTableManagerDescriptor.Resolve | source/RevitLookup/Core/Decomposition/Descriptors/FamilySizeTableManagerDescriptor.cs:23-31 | The three names resolve, each to its own resolver. |
| FamilySizeTableManagerDescriptor.ResolveSizeTable | source/RevitLookup/Core/Decomposition/Descriptors/FamilySizeTableManagerDescriptor.cs:33-44 | One table per size-table name, labelled with the name. |
| FamilySizeTableManagerDescriptor.ResolveHasSizeTable | source/RevitLookup/Core/Decomposition/Descriptors/FamilySizeTableManagerDescriptor.cs:46-58 | One answer per name, labelled "{name}: {result}". |
| FamilySizeTableManagerDescriptor.ResolveGetFamilySizeTableManager | source/RevitLookup/Core/Decomposition/Descriptors/FamilySizeTableManagerDescriptor.cs:60-63 | A single unlabelled value: the manager itself. |
| FamilyManagerDescriptor.Resolve | source/RevitLookup/Core/Decomposition/Descriptors/FamilyManagerDescriptor.cs:23-30 | `IsParameterLockable` and `IsParameterLocked` resolve without a document. |
| FamilyManagerDescriptor.ResolveInContext | source/RevitLookup/Core/Decomposition/Descriptors/FamilyManagerDescriptor.cs:59-65 | `GetAssociatedFamilyParameter` resolves only through the document resolver. |
| FamilyManagerDescriptor.AssociationNeedsDocument | source/RevitLookup/Core/Decomposition/Descriptors/FamilyManagerDescriptor.cs:23-65 | The plain resolver gives null for `GetAssociatedFamilyParameter`. The document resolver gives a factory for it. |
| FamilyManagerDescriptor.ResolveIsParameterLockable | source/RevitLookup/Core/Decomposition/Descriptors/FamilyManagerDescriptor.cs:32-43 | One answer per family parameter, labelled "{definition name}: {result}". |
| FamilyManagerDescriptor.ResolveIsParameterLocked | source/RevitLookup/Core/Decomposition/Descriptors/FamilyManagerDescriptor.cs:45-56 | One answer per family parameter, labelled alike. |
| FamilyManagerDescriptor.ResolveGetAssociatedFamilyParameter | source/RevitLookup/Core/Decomposition/Descriptors/FamilyManagerDescriptor.cs:67-89 | The (parameter, family parameter) pairs of all element parameters that have an association, in element then parameter order. |
| FamilyManagerDescriptor.AssociationListed | source/RevitLookup/Core/Decomposition/Descriptors/FamilyManagerDescriptor.cs:76-86 | A parameter is listed iff some element has it and it is associated. |
| MepSectionDescriptor.Resolve | source/RevitLookup/Core/Decomposition/Descriptors/MepSectionDescriptor.cs:25-35 | The five member names resolve, each to its own resolver. |
| MepSectionDescriptor.ResolveSectionIds | source/RevitLookup/Core/Decomposition/Descriptors/MepSectionDescriptor.cs:37-47 | The section's element ids, unlabelled, in order. |
| MepSectionDescriptor.ResolvePerId | source/RevitLookup/Core/Decomposition/Descriptors/MepSectionDescriptor.cs:49-71 | One answer per element id, labelled "ID{id}". |
| MepSectionDescriptor.ResolveCoefficient | source/RevitLookup/Core/Decomposition/Descriptors/MepSectionDescriptor.cs:49-59 | The coefficient of each id, labelled "ID{id}". |
| MepSectionDescriptor.ResolvePressureDrop | source/RevitLookup/Core/Decomposition/Descriptors/MepSectionDescriptor.cs:61-71 | The pressure drop of each id, labelled "ID{id}". |
| MepSectionDescriptor.Answered | source/RevitLookup/Core/Decomposition/Descriptors/MepSectionDescriptor.cs:77-88 | One labelled entry per id whose query returned, in order. |
| MepSectionDescriptor.ResolveSkippingRejected | source/RevitLookup/Core/Decomposition/Descriptors/MepSectionDescriptor.cs:73-111 | Ids whose query throws `ArgumentException` are skipped. Any other exception escapes, the first one encountered. |
| MepSectionDescriptor.ResolveSegmentLength | source/RevitLookup/Core/Decomposition/Descriptors/MepSectionDescriptor.cs:73-91 | The segment lengths of the ids that answer, and the first escaping exception otherwise. |
| MepSectionDescriptor.ResolveIsMain | source/RevitLookup/Core/Decomposition/Descriptors/MepSectionDescriptor.cs:93-111 | The same protocol for `IsMain`. |
| MepSectionDescriptor.RejectedIdsSkipped | source/RevitLookup/Core/Decomposition/Descriptors/MepSectionDescriptor.cs:77-88 | An id is kept iff its query returns. The kept ids keep section order. |
| MepSectionDescriptor.NothingRejected | source/RevitLookup/Core/Decomposition/Descriptors/MepSectionDescriptor.cs:77-88 | When every query returns, every id is kept. |
| PlanViewRangeDescriptor.Resolve | source/RevitLookup/Core/Decomposition/Descriptors/PlanViewRangeDescriptor.cs:23-30 | `GetOffset` and `GetLevelId` resolve, each to its own resolver. |
| PlanViewRangeDescriptor.ResolveGetOffset | source/RevitLookup/Core/Decomposition/Descriptors/PlanViewRangeDescriptor.cs:32-45 | Four offsets, top clip to underlay bottom, labelled "{plane}: {offset}". |
| PlanViewRangeDescriptor.ResolveGetLevelId | source/RevitLookup/Core/Decomposition/Descriptors/PlanViewRangeDescriptor.cs:47-55 | The four level ids in the same plane order, labelled with the plane name. |
| PlanViewRangeDescriptor.PlanesDistinct | source/RevitLookup/Core/Decomposition/Descriptors/PlanViewRangeDescriptor.cs:34-53 | The four planes and their labels are distinct, and every plane is queried. |
| LocationCurveDescriptor.Resolve | source/RevitLookup/Core/Decomposition/Descriptors/LocationCurveDescriptor.cs:23-30 | `ElementsAtJoin` and `JoinType` resolve, each to its own resolver. |
| LocationCurveDescriptor.ResolveAtEnds | source/RevitLookup/Core/Decomposition/Descriptors/LocationCurveDescriptor.cs:32-54 | Ends 0 and 1, labelled "Point {i}". |
| LocationCurveDescriptor.ResolveElementsAtJoin | source/RevitLookup/Core/Decomposition/Descriptors/LocationCurveDescriptor.cs:32-42 | The elements at joins 0 and 1, labelled "Point 0" and "Point 1". |
| LocationCurveDescriptor.ResolveJoinType | source/RevitLookup/Core/Decomposition/Descriptors/LocationCurveDescriptor.cs:44-54 | The join types at ends 0 and 1, labelled alike. |
| LightFamilyDescriptor.Resolve | source/RevitLookup/Core/Decomposition/Descriptors/LightFamilyDescriptor.cs:24-31 | `GetLightTypeName` and `GetLightType` resolve, each to its own resolver. |
| LightFamilyDescriptor.ResolveLightTypeName | source/RevitLookup/Core/Decomposition/Descriptors/LightFamilyDescriptor.cs:33-44 | One unlabelled name per light type index. |
| LightFamilyDescriptor.ResolveLightType | source/RevitLookup/Core/Decomposition/Descriptors/LightFamilyDescriptor.cs:46-57 | One light type per index, labelled "Index {i}". |
| AssetPropertiesDescriptor.Resolve | source/RevitLookup/Core/Decomposition/Descriptors/AssetPropertiesDescriptor.cs:24-31 | `Get` and `FindByName` both resolve to the same listing. Nothing else resolves. |
| AssetPropertiesDescriptor.ResolveAssetProperties | source/RevitLookup/Core/Decomposition/Descriptors/AssetPropertiesDescriptor.cs:33-44 | One property per index below `Size`, labelled with its name. |
| AssetPropertyDescriptor.Resolve | source/RevitLookup/Core/Decomposition/Descriptors/AssetPropertyDescriptor.cs:24-31 | `GetTypeName` and `GetConnectedProperty` resolve, each to its own resolver. |
| AssetPropertyDescriptor.ResolveConnectedProperty | source/RevitLookup/Core/Decomposition/Descriptors/AssetPropertyDescriptor.cs:33-44 | One connected property per index, labelled with its name. |
| AssetPropertyDescriptor.ResolveGetTypeName | source/RevitLookup/Core/Decomposition/Descriptors/AssetPropertyDescriptor.cs:46-49 | A single unlabelled value: the type name of the property's own type. |
| ConnectorManagerDescriptor.Resolve | source/RevitLookup/Core/Decomposition/Descriptors/ConnectorManagerDescriptor.cs:23-29 | Only `Lookup` resolves. |
| ConnectorManagerDescriptor.ResolveLookup | source/RevitLookup/Core/Decomposition/Descriptors/ConnectorManagerDescriptor.cs:31-43 | One unlabelled connector per index below the connector set's size. |
| MemberAttributeIconConverter.FirstKind | source/RevitLookup.UI.Framework/Converters/ValueConverters/MemberAttributeIconConverter.cs:27-53 | The kind that decides the icon: Property, then Method, Field, Event, Extension. None when no kind flag is set. |
| MemberAttributeIconConverter.Convert | source/RevitLookup.UI.Framework/Converters/ValueConverters/MemberAttributeIconConverter.cs:27-53 | `DoNothing` iff no kind flag is set. Otherwise the if-chain gives the reference table's icon for the first kind present (property, method, field, event, extension), with its Private and Static flags. |
| MemberAttributeIconConverter.IconsIdentifyKind | source/RevitLookup.UI.Framework/Converters/ValueConverters/MemberAttributeIconConverter.cs:31-49 | Two members with the same icon have the same kind. |
| MemberAttributeIconConverter.ModifiersShown | source/RevitLookup.UI.Framework/Converters/ValueConverters/MemberAttributeIconConverter.cs:31-49 | Static changes the icon of properties, methods and fields, but not of events or extensions. Private changes every kind's icon except an extension's. |
| MemberAttributeIconConverter.ConvertBack | source/RevitLookup.UI.Framework/Converters/ValueConverters/MemberAttributeIconConverter.cs:55-58 | Always throws `NotSupportedException`. |
| BytesToStringConverter.Convert | source/RevitLookup.UI.Framework/Converters/ValueConverters/BytesToStringConverter.cs:23-33 | Blank iff 0. Bytes below 1000, kilobytes in [1, 1000) below a million, megabytes otherwise. Each amount scales back to the byte count. |
| BytesToStringConverter.NegativeShownInBytes | source/RevitLookup.UI.Framework/Converters/ValueConverters/BytesToStringConverter.cs:29 | A negative count falls in the bytes case and shows its minus sign. |
| BytesToStringConverter.ConvertBack | source/RevitLookup.UI.Framework/Converters/ValueConverters/BytesToStringConverter.cs:35-38 | Always throws `NotSupportedException`. |
| SummaryTooltips.ObjectTooltip | source/RevitLookup.UI.Framework/Views/Decomposition/SummaryViewBase.ToolTips.cs:27-45 | The appended text equals the object's lines joined by CRLF. |
| SummaryTooltips.ObjectTooltipLayout | source/RevitLookup.UI.Framework/Views/Decomposition/SummaryViewBase.ToolTips.cs:27-45 | The object tooltip is its lines joined by CRLF: three lines, plus a fourth "Description: …" iff there is a description. |
| SummaryTooltips.GroupTooltip | source/RevitLookup.UI.Framework/Views/Decomposition/SummaryViewBase.ToolTips.cs:50-58 | The appended text equals the two lines "Type: {group}" and "Items: {count}" joined by CRLF. |
| SummaryTooltips.GroupTooltipLayout | source/RevitLookup.UI.Framework/Views/Decomposition/SummaryViewBase.ToolTips.cs:50-58 | Two lines, "Type: {group}" and "Items: {count}". The count parses back from the second line. |
| SummaryTooltips.ModifiersEmptyIff | source/RevitLookup.UI.Framework/Views/Decomposition/SummaryViewBase.ToolTips.cs:67-73 | The modifier prefix is empty iff no attribute flag is set. |
| SummaryTooltips.OneKindPrefix | source/RevitLookup.UI.Framework/Views/Decomposition/SummaryViewBase.ToolTips.cs:67-73 | A member of a single kind opens with "Private " when private, then "Static " when static, then its kind word, e.g. "Private Static Method: ". |
| SummaryTooltips.GridRowTooltip | source/RevitLookup.UI.Framework/Views/Decomposition/SummaryViewBase.ToolTips.cs:63-106 | The appended text equals the row's lines joined by CRLF. |
| SummaryTooltips.GridRowTooltipLayout | source/RevitLookup.UI.Framework/Views/Decomposition/SummaryViewBase.ToolTips.cs:63-107 | Four base lines, plus description and time lines when present. The allocation line comes last when bytes are positive. |
| ObservableIniEntry.RequiredErrors | source/RevitLookup.Abstractions/ObservableModels/Entries/ObservableIniEntry.cs:25-26 | `Category` and `Property` are in error iff empty or white space, and nothing else is. |
| ObservableIniEntry.ModifiedAfterValueChange | source/RevitLookup.Abstractions/ObservableModels/Entries/ObservableIniEntry.cs:44-47 | After a value change: modified iff a default exists and differs. |
| ObservableIniEntry.ModifiedAfterDefaultChange | source/RevitLookup.Abstractions/ObservableModels/Entries/ObservableIniEntry.cs:49-52 | After a default change: modified iff the default differs from the value. A null default always counts. |
| ObservableIniEntry.HooksAgreeWithDefault | source/RevitLookup.Abstractions/ObservableModels/Entries/ObservableIniEntry.cs:44-52 | The two hooks disagree exactly when there is no default. |
| ObservableIniEntry.IniEntry.constructor | source/RevitLookup.Abstractions/ObservableModels/Entries/ObservableIniEntry.cs:25-32 | Empty texts, no default, nothing active, modified or in error. |
| ObservableIniEntry.IniEntry.SetCategory | source/RevitLookup.Abstractions/ObservableModels/Entries/ObservableIniEntry.cs:25 | A change revalidates `Category` only. Setting the same text changes nothing. The error set stays current. |
| ObservableIniEntry.IniEntry.SetProperty | source/RevitLookup.Abstractions/ObservableModels/Entries/ObservableIniEntry.cs:26 | The same for `Property`. |
| ObservableIniEntry.IniEntry.SetValue | source/RevitLookup.Abstractions/ObservableModels/Entries/ObservableIniEntry.cs:44-47 | A change recomputes `IsModified` by the value hook. The modified flag stays current. |
| ObservableIniEntry.IniEntry.SetDefaultValue | source/RevitLookup.Abstractions/ObservableModels/Entries/ObservableIniEntry.cs:49-52 | A change recomputes `IsModified` by the default hook. Clearing the default marks the entry modified. |
| ObservableIniEntry.IniEntry.SetIsActive | source/RevitLookup.Abstractions/ObservableModels/Entries/ObservableIniEntry.cs:39-42 | `UserDefined` becomes set once `IsActive` changes. |
| ObservableIniEntry.IniEntry.Validate | source/RevitLookup.Abstractions/ObservableModels/Entries/ObservableIniEntry.cs:34-37 | Afterwards the errors are current: some error iff category or property is blank. |
| ObservableIniEntry.IniEntry.Clone | source/RevitLookup.Abstractions/ObservableModels/Entries/ObservableIniEntry.cs:54-62 | A fresh entry with the same category, property and value, and no default or flags. Only non-empty blank texts are in error. |
| NotificationService.Service.constructor | source/RevitLookup.UI.Framework/Services/Presentation/NotificationService.cs:22-24 | No pending or shown bars, and no subscription. |
| NotificationService.Service.Push | source/RevitLookup.UI.Framework/Services/Presentation/NotificationService.cs:74-114 | A loaded host shows the bar at once. Otherwise it is queued, and `Loaded` is subscribed on the first queued bar only. Every bar is raised exactly once, in call order while the queue was empty. |
| NotificationService.Service.ShowSuccess | source/RevitLookup.UI.Framework/Services/Presentation/NotificationService.cs:26-36 | Raises one success bar (Success, ChatWarning24). |
| NotificationService.Service.ShowWarning | source/RevitLookup.UI.Framework/Services/Presentation/NotificationService.cs:38-48 | Raises one warning bar (Caution, Warning24). |
| NotificationService.Service.ShowError | source/RevitLookup.UI.Framework/Services/Presentation/NotificationService.cs:50-60 | Raises one error bar (Danger, ErrorCircle24). |
| NotificationService.Service.ShowException | source/RevitLookup.UI.Framework/Services/Presentation/NotificationService.cs:62-72 | Raises one error bar carrying the exception's message. |
| NotificationService.Service.ShowPendingNotifications | source/RevitLookup.UI.Framework/Services/Presentation/NotificationService.cs:146-154 | Shows the queued bars in order, empties the queue and unsubscribes. The raised sequence is unchanged. |
| UnitsCollector.CollectEnum | source/RevitLookup/Core/Tools/Units/UnitsCollector.cs:9-53 | The loop collects exactly the members whose label does not throw, in enum order. |
| UnitsCollector.GetBuiltinParametersInfo | source/RevitLookup/Core/Tools/Units/UnitsCollector.cs:9-30 | The built-in parameters with a label, each with its name, label and value. |
| UnitsCollector.GetBuiltinCategoriesInfo | source/RevitLookup/Core/Tools/Units/UnitsCollector.cs:32-53 | The built-in categories with a label, alike. |
| UnitsCollector.EnumEntriesExact | source/RevitLookup/Core/Tools/Units/UnitsCollector.cs:13-27 | A parameter is listed iff it is an enum member whose label succeeds. Each entry carries the member's name and label. |
| UnitsCollector.EnumEntriesOrdered | source/RevitLookup/Core/Tools/Units/UnitsCollector.cs:13-27 | The listed members keep enum order. |
| UnitsCollector.Outermost | source/RevitLookup/Core/Tools/Units/UnitsCollector.cs:113-117 | Walking up `DeclaringType` ends at a non-nested type, the first of the nesting chain. |
| UnitsCollector.GetClassName | source/RevitLookup/Core/Tools/Units/UnitsCollector.cs:90-106 | The builder loop yields the nesting chain and the property name, joined by dots. |
| UnitsCollector.KindOf | source/RevitLookup/Core/Tools/Units/UnitsCollector.cs:121-131 | A label kind exists iff the class is one of the six Forge id classes. |
| UnitsCollector.GetLabel | source/RevitLookup/Core/Tools/Units/UnitsCollector.cs:108-139 | Empty for an empty id, for `Custom`, for an unknown outer class and on a label error. Otherwise it is the label the host gives. |
| UnitsCollector.CollectedFrom | source/RevitLookup/Core/Tools/Units/UnitsCollector.cs:59-70 | Every collected property comes from one of the ten listed classes. |
| UnitsCollector.GetForgeInfo | source/RevitLookup/Core/Tools/Units/UnitsCollector.cs:55-87 | One entry per collected property, in order, with its type id, its class name and the label `GetLabel` computes for it ("" for an empty id or `Custom`). |
| UnitsViewModel.Search | source/RevitLookup/ViewModels/Tools/UnitsViewModel.cs:95-109 | The search loop returns exactly the filter of the units by label or unit text. |
| UnitsViewModel.SearchExact | source/RevitLookup/ViewModels/Tools/UnitsViewModel.cs:97-108 | A unit is found iff it is listed and its label or unit contains the text, ignoring case. Results keep list order. |
| UnitsViewModel.WhiteSpaceKeepsAll | source/RevitLookup/ViewModels/Tools/UnitsViewModel.cs:97 | A non-empty blank query trims to "" and keeps every unit. |
| UnitsViewModel.Decompose | source/RevitLookup/ViewModels/Tools/UnitsViewModel.cs:50-82 | Parameters and categories need an open document, or the warning bar is raised. Class names are decomposed as they are. |
| UnitsViewModel.UnitsPage.constructor | source/RevitLookup/ViewModels/Tools/UnitsViewModel.cs:31-33 | Empty lists and an empty search text. |
| UnitsViewModel.UnitsPage.SetUnits | source/RevitLookup/ViewModels/Tools/UnitsViewModel.cs:117-120 | Setting the units resets the filtered list to them. |
| UnitsViewModel.UnitsPage.InitializeParameters | source/RevitLookup/ViewModels/Tools/UnitsViewModel.cs:35-38 | Units and filtered units become the collected parameters. |
| UnitsViewModel.UnitsPage.InitializeCategories | source/RevitLookup/ViewModels/Tools/UnitsViewModel.cs:40-43 | The same with the collected categories. |
| UnitsViewModel.UnitsPage.InitializeForgeSchema | source/RevitLookup/ViewModels/Tools/UnitsViewModel.cs:45-48 | The same with the Forge entries. |
| UnitsViewModel.UnitsPage.SetSearchText | source/RevitLookup/ViewModels/Tools/UnitsViewModel.cs:85-115 | A changed empty text shows every unit. A changed non-empty text shows the search result for the trimmed text. |
| ModulesViewModel.CollectModules | source/RevitLookup/ViewModels/Tools/ModulesViewModel.cs:32-56 | One module per loaded assembly, numbered from 1. Missing names and versions become "", and dynamic assemblies get an empty path. |
| ModulesViewModel.Search | source/RevitLookup/ViewModels/Tools/ModulesViewModel.cs:69-84 | The search loop returns exactly the filter by name, path or version. |
| ModulesViewModel.SearchExact | source/RevitLookup/ViewModels/Tools/ModulesViewModel.cs:73-81 | A module is found iff it is listed and matches. Results keep list order. |
| ModulesViewModel.ModulesPage.constructor | source/RevitLookup/ViewModels/Tools/ModulesViewModel.cs:32-56 | The page starts with the collected modules, all shown: module k is `ModuleOf` assembly k, so it carries that assembly's name, path, version and the domain's name, numbered k+1. |
| ModulesViewModel.ModulesPage.SetModules | source/RevitLookup/ViewModels/Tools/ModulesViewModel.cs:92-95 | Setting the modules resets the filtered list. |
| ModulesViewModel.ModulesPage.SetSearchText | source/RevitLookup/ViewModels/Tools/ModulesViewModel.cs:59-90 | An empty text shows every module. Otherwise the filter for the trimmed text is shown. |
| FontIconsPageViewModel.Insert | source/RevitLookup.UI.Playground/Client/ViewModels/Pages/DesignGuidance/FontIconsPageViewModel.cs:22 | Inserting into a name-sorted list keeps it sorted and adds exactly the one icon. |
| FontIconsPageViewModel.SortByName | source/RevitLookup.UI.Playground/Client/ViewModels/Pages/DesignGuidance/FontIconsPageViewModel.cs:21-23 | `OrderBy(Name)` gives a permutation of the icons, sorted by name. |
| FontIconsPageViewModel.FirstIsLeast | source/RevitLookup.UI.Playground/Client/ViewModels/Pages/DesignGuidance/FontIconsPageViewModel.cs:25 | The selected first icon has the least name of all icons. |
| FontIconsPageViewModel.Search | source/RevitLookup.UI.Playground/Client/ViewModels/Pages/DesignGuidance/FontIconsPageViewModel.cs:52-64 | The loop returns exactly the icons whose name contains the text. |
| FontIconsPageViewModel.SearchSortedExact | source/RevitLookup.UI.Playground/Client/ViewModels/Pages/DesignGuidance/FontIconsPageViewModel.cs:56-62 | Results stay sorted. An icon is found iff it is listed and its name contains the text. |
| FontIconsPageViewModel.FilterKeepsSorted | source/RevitLookup.UI.Playground/Client/ViewModels/Pages/DesignGuidance/FontIconsPageViewModel.cs:56-62 | Any filter of a sorted list is sorted. |
| FontIconsPageViewModel.FontIconsPage.constructor | source/RevitLookup.UI.Playground/Client/ViewModels/Pages/DesignGuidance/FontIconsPageViewModel.cs:18-26 | The icons are the sorted data, all shown. The first icon is selected, or none when empty. |
| FontIconsPageViewModel.FontIconsPage.SetIcons | source/RevitLookup.UI.Playground/Client/ViewModels/Pages/DesignGuidance/FontIconsPageViewModel.cs:38-41 | Setting the icons resets the filtered list. |
| FontIconsPageViewModel.FontIconsPage.SetSearchText | source/RevitLookup.UI.Playground/Client/ViewModels/Pages/DesignGuidance/FontIconsPageViewModel.cs:43-66 | A blank text shows every icon. Otherwise the filter for the trimmed text is shown. |
| CurveLoopVisualizationViewModel.Dedupe | source/RevitLookup/ViewModels/Visualization/CurveLoopVisualizationViewModel.cs:61-70 | Deduplication never grows the point list. |
| CurveLoopVisualizationViewModel.CollectVertices | source/RevitLookup/ViewModels/Visualization/CurveLoopVisualizationViewModel.cs:58-74 | The nested loops compute the specified vertex list, including the closing vertex and the empty-loop failure. |
| CurveLoopVisualizationViewModel.DedupeSound | source/RevitLookup/ViewModels/Visualization/CurveLoopVisualizationViewModel.cs:64-69 | Kept vertices come from the tessellation, and no two are almost equal. |
| CurveLoopVisualizationViewModel.DedupeCovers | source/RevitLookup/ViewModels/Visualization/CurveLoopVisualizationViewModel.cs:64-69 | Every tessellated point is kept or almost equal to a kept one. |
| CurveLoopVisualizationViewModel.VerticesShape | source/RevitLookup/ViewModels/Visualization/CurveLoopVisualizationViewModel.cs:72-73 | An open loop gives the deduplicated points. A closed loop repeats its first vertex at the end. It fails iff it is closed and has no points. |
| CurveLoopVisualizationViewModel.DedupeNonEmpty | source/RevitLookup/ViewModels/Visualization/CurveLoopVisualizationViewModel.cs:72 | A non-empty tessellation keeps at least one vertex, so `vertices[0]` exists. |
| CurveLoopVisualizationViewModel.RegisterServer | source/RevitLookup/ViewModels/Visualization/CurveLoopVisualizationViewModel.cs:47-56 | A non-CurveLoop throws `ArgumentException`. A loop registers its collected vertices. |
| SettingsService.DefaultVisualization | source/RevitLookup/Services/Settings/SettingsService.cs:156-241 | Face and mesh extrusions equal the vertex tolerance times 12. Polyline and curve-loop settings coincide. |
| SettingsService.DefaultDecompositionOptions | source/RevitLookup/Services/Settings/SettingsService.cs:146-154 | Static, events and extensions are on. Everything else is off. |
| SettingsService.Get | source/RevitLookup/Services/Settings/SettingsService.cs:26-28 | Reading an unloaded slot throws "Settings is not loaded.". Otherwise it gives the slot's value. |
| SettingsService.Loaded | source/RevitLookup/Services/Settings/SettingsService.cs:71-129 | A missing file resets to defaults. An unreadable file keeps the old slot. A read file replaces it, even with null. |
| SettingsService.Service.constructor | source/RevitLookup/Services/Settings/SettingsService.cs:22-24 | Nothing is loaded and nothing is logged. |
| SettingsService.Service.ApplicationSettingsValue | source/RevitLookup/Services/Settings/SettingsService.cs:26 | Throws iff the application settings are unloaded. |
| SettingsService.Service.DecompositionSettingsValue | source/RevitLookup/Services/Settings/SettingsService.cs:27 | Throws iff the decomposition settings are unloaded. |
| SettingsService.Service.VisualizationSettingsValue | source/RevitLookup/Services/Settings/SettingsService.cs:28 | Throws iff the visualization settings are unloaded. |
| SettingsService.Service.ResetApplicationSettings | source/RevitLookup/Services/Settings/SettingsService.cs:131-144 | The 2024 defaults: Auto theme, no backdrop, no transition, hardware rendering. |
| SettingsService.Service.ResetDecompositionSettings | source/RevitLookup/Services/Settings/SettingsService.cs:146-154 | The decomposition defaults. |
| SettingsService.Service.ResetVisualizationSettings | source/RevitLookup/Services/Settings/SettingsService.cs:156-241 | The visualization defaults for the given tolerance. |
| SettingsService.Service.LoadApplicationSettings | source/RevitLookup/Services/Settings/SettingsService.cs:71-89 | The slot becomes `Loaded`, and a read failure is logged under its message. |
| SettingsService.Service.LoadDecompositionSettings | source/RevitLookup/Services/Settings/SettingsService.cs:91-109 | The same for decomposition settings. |
| SettingsService.Service.LoadVisualizationSettings | source/RevitLookup/Services/Settings/SettingsService.cs:111-129 | The same for visualization settings, logged with the application message as the code does. |
| SettingsService.Service.LoadSettings | source/RevitLookup/Services/Settings/SettingsService.cs:37-42 | Loads the three files in order, and the log grows by their errors in that order. |
| SettingsService.Service.SaveSettings | source/RevitLookup/Services/Settings/SettingsService.cs:30-35 | Writes the three slots as they are, null included. |
| SettingsService.LoadedReadable | source/RevitLookup/Services/Settings/SettingsService.cs:71-89 | After a missing file, or a file that holds settings, the getter succeeds. |
| SettingsService.UnreadableStaysUnloaded | source/RevitLookup/Services/Settings/SettingsService.cs:80-88 | An unreadable file leaves unloaded settings unloaded, so the getter still throws. |
| InstallerTools.Derive | install/Installer.Tools.cs:44-50 | The assembly version is kept, and the Revit version is its major. The installer major is taken mod 100 when above 255, so it always fits 255. |
| InstallerTools.FirstWithAssembly | install/Installer.Tools.cs:38-41 | The first directory that contains the assembly, if any. |
| InstallerTools.ComputeVersions | install/Installer.Tools.cs:36-54 | With no such directory, the result is the "could not be found" error. Otherwise the versions derive from the first file of the first such directory. |
| InstallerTools.YearMajor | install/Installer.Tools.cs:44-50 | A build numbered 2000-2099 installs as its year's last two digits (2025.1.0 as 25.1.0), for that Revit year. Builds of two different years never share an installer version. |
| BuildConfiguration.ReleaseVersionNumber | build/Build.Configuration.cs:82 | Null iff the release version is null. Otherwise it is a dash-free prefix of it. |
| BuildConfiguration.IsPrerelease | build/Build.Configuration.cs:97 | A release version is a prerelease (differs from its number) iff it is set and contains '-'. |
| BuildConfiguration.ReleaseStage | build/Build.Configuration.cs:92 | "production" unless a prerelease. Otherwise a field free of '.' and '-'. |
| BuildConfiguration.StageOf | build/Build.Configuration.cs:82-97 | "{number}-{stage}.{rest}" has number `number`, is a prerelease and has stage `stage`. |
| BuildConfiguration.ProductionOf | build/Build.Configuration.cs:82-97 | A version with no '-' (the documented 1.0.0 form) is its own number, not a prerelease, and has stage "production". An unset version behaves the same way. |

## Left out

- The decomposition engine itself is not part of this model. That covers member enumeration, reflection fallback, invocation, timing, sorting and the `Variants` implementation. `Engine` models only the interface the descriptors use. `Add` after `Consume` is a precondition here, where the real builder's behaviour is unknown.
- Revit API semantics are inputs. Every host query (geometry, materials, sections, labels, `Enum.GetValues`) is a function or a sequence the caller supplies. The model says which calls are made and how their answers are labelled, not what the host answers.
- Value formatting is left out. Doubles and `F3` formatting in `BytesToStringConverter` are modelled as the exact real amount. Time in the grid tooltip is a caller-supplied `showTime`. Plan-view offsets use a caller-supplied `show`.
- Culture and text: `OrderBy(Name)` on font icons is modelled as an ordinal order, and its stability is not modelled. `Contains(…, OrdinalIgnoreCase)` upper-cases ASCII letters only.
- Threading is left out. The dispatcher hop in `NotificationService` is a plain call. The `Task.Run` searches of the tool pages run synchronously, so results cannot arrive out of order. The `try`/`catch` around them has nothing to catch in the model.
- `TableDataDescriptor.ResolveZoomLevel`: the host's valid zoom levels are modelled as a finite set, so the scan always stops after 50 invalid levels in a row. If the host reported every level as valid, the source loop would never end, and its `int` counter would overflow first. The model does not capture that case.
- `NotificationService.Service.Push`: one host window is modelled, and a delegate chain is modelled as a queue of snackbars. The ordering ensures holds only while the queue is empty or the host is unloaded. A bar shown while older bars still wait is raised before them.
- `ObservableProperty` change detection compares references for lists. `SetUnits`, `SetModules` and `SetIcons` therefore always run their hook.
- `ObservableIniEntry.IniEntry.Validate`: only the `[Required]` attributes are modelled. Error messages are reduced to the property names.
- `DocumentDescriptor.ResolvePlanTopologies`: the transaction around reading `PlanTopologies` is not modelled. The descriptor is the obsolete project's, whose builder is returned unsealed, and it is modelled as `Values` all the same.
- `ForgeTypeIdDescriptor`: the code registers seven names under `REVIT2022_OR_GREATER`, and the model follows the code.
- Settings I/O is input. File existence, JSON parsing and the logger are modelled as a `StoredFile` value and an appended log. JSON write-out is modelled as returning the three slots.
- `CurveLoopVisualizationViewModel`: the render server, its `RenderFailed` event and the `Update*` calls are not modelled. `IsAlmostEqualTo` is a caller-supplied relation.
- `InstallerTools.ComputeVersions`: directory search and `FileVersionInfo` parsing are inputs. `ClearRevision` is modelled by the three-field `Version`.
- `BuildConfiguration`: git queries and the other build properties are not modelled.
- Revit 2025+ and .NET builds are not modelled. Under them `MacroManager` is gone, and `ModuleInfo.Container` comes from `AssemblyLoadContext` instead of the AppDomain name.
- Context-menu connectors (`RegisterMenu`) are modelled only by the availability of the parameter's "Edit value" item (`ParameterDescriptor.EditAvailable`). The menu items, their commands, shortcuts and the dialogs they open are not part of this model.

## Findings

| source | as written | input that shows it | evidently intended | confidence | as-written member | corrected member |
|---|---|---|---|---|---|---|
| source/RevitLookup/Core/Decomposition/Descriptors/SpatialElementDescriptor.cs:54-73 | The last four boundary requests also set `StoreFreeBoundaryFaces = true`, but their labels ("Center", "Core boundary", "Finish", "Core center") leave out ", store free boundary faces". | Any spatial element. Entry 4 ("Center") is computed with the same options as entry 0 ("Center, store free boundary faces"), so the two always show the same segments. | The last four requests use `StoreFreeBoundaryFaces = false`, giving eight distinct requests whose labels describe them. | not executed | SpatialElementDescriptor.AsWrittenRepeatsRequests | SpatialElementDescriptor.RequestsTruthful |
