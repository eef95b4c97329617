# A verified model of go-django-queries

go-django-queries builds SQL from Go expressions, folds joined rows back into
object trees, keeps nested operations inside one transaction, and plans schema
migrations. This project models those parts in Dafny as abstract data and steps
(no reflection, no database) and proves what they promise. Where the code does
not keep a promise, the code is modelled as it is, and the exact condition under
which the promise holds is proved instead.

`dafny verify dfyconfig.toml` checks everything.

## Structure

| files | what they model |
|---|---|
| `SqlText`, `Expressions`, `ExpressionMeaning`, `Placeholders` | the expression compiler: trees to text with placeholders and an argument list |
| `BooleanReading` | the printed boolean structure, parsed under the grammar of a search condition (section 8.12 of ISO/IEC 9075:1992) in three-valued logic |
| `ClauseWriters`, `SelectMeaning`, `UpdateQuery` | whole SELECT and UPDATE statements, written through a string builder |
| `LikePattern` | LIKE (section 8.5 of ISO/IEC 9075:1992) and the escaping of search strings |
| `RawStatement`, `RawCode` | raw statements with field, table and value markers, rendered by two printf passes, and when their arguments belong to their placeholders |
| `MigrationGraph`, `MigrationDiff`, `MigrationNames` | the migration planner: topological sort, schema diff, file names and dependency strings |
| `Transactions` | the transaction protocol around one shared compiler slot, with a trace of the driver |
| `AliasGenerator`, `JoinPlans`, `JoinPlanner`, `SharedChains`, `Projection` | planning a selection: aliases, joins, the chains of proxies as slices, the written columns and the fields rows are scanned into |
| `DedupeForest`, `DedupeRows`, `DedupeCompile`, `DedupeQuery`, `ResultRows` | from the selected fields to the rows of a query: joined rows folded into a forest and compiled to objects |
| `Pluck`, `RelationSets` | walking a path of fields over rows; many-to-many relation sets |
| `Outcomes`, `Numerals`, `Keys`, `OrderedMaps`, `Sequences` | small things shared |

Code that changes things step by step (builders, the planner, the transaction
slot, the alias generator, the deduplicator, selections, relation sets) is
written as classes and methods with loops and proved against functions or
predicates; the laws are then lemmas about those. Expression trees, lookups and
codecs are datatypes and functions.

What a reader would not guess from the code, and is proved here:

- A transform over a left-hand side that holds a bound value, and an unresolved
  expression given to IN, lose a placeholder but keep its argument
  (`Placeholders.CompiledExpressionLinesUp`).
- A LIKE lookup means what it says exactly when the search string survives
  escaping and, where MySQL lowers the search string alone, is in lower case; a
  backslash always breaks it (`LikePattern.LookupKeepsPromise`).
- In an UPDATE, a virtual field that computes its own SQL and yet has a column
  name leaves its value behind, and later columns receive the wrong value
  (`UpdateQuery.ClashShiftsValues`). Only a `VirtualField` written by a user can be
  such a field: the library's own computed fields are never saved, so for them
  every value is in place (`UpdateQuery.LibraryUpdateLinesUp`).
- A marker of a raw statement that contains another kind of marker is found twice
  (`RawStatement.HiddenMarker`, `RawStatement.PassesAreSimultaneous`).
- A raw statement without field or table markers keeps its doubled percent signs
  (`RawStatement.RawStatementRenders`).
- Planning only unapplied migrations fails as soon as one of them depends on an
  applied one (`MigrationGraph.SecondMigrationIsStuck`); a migration that only takes an
  index away cannot be named (`MigrationNames.NamingPanics`); the search for
  renamed indexes never finds one (`MigrationDiff.RenameIndexes`).
- Selecting `Relation.Key`, where `Key` is itself a relation, joins the table of
  that other relation under the alias of the first
  (`JoinPlanner.AliasStandsForModel`, `JoinPlanner.JoinedTwice`); selecting
  `Book.*` and `Book.Shop` joins two tables under one alias
  (`JoinPlanner.SelectBookAndShop`).
- On a path of three relations or more with a star, the chain of the first proxy of
  its model is overwritten with the name of the last (`SharedChains.SelectChains`).
- The way from a relation's scanned field up to the root is cut when the root's
  primary field is not selected before it (`Projection.AuthorBeforeBook`). Its chain
  then looks for a root under the key of the relation's own object: the row panics,
  or, when the keys are equal by chance, the object is lost
  (`ResultRows.NameAndBooks`, `ResultRows.NameAndProfile`). With the primary field
  selected first every row is judged on its own (`ResultRows.RootedRowsFold`).
- A field that moves to another column is altered, which renames nothing
  (`MigrationDiff.MovedColumn`).
- Iterating a plucked sequence twice goes on counting (`Pluck.PluckAgain`), and a
  nil over a table between, at the root of a row, panics although nil further
  down is skipped (`Pluck.NilStopsPlucking`).
- A removed target stays in a many-to-many set when its field holds the key in
  another form than the database (`RelationSets.RemovedYetKept`).

## Model

| member | source | states |
|---|---|---|
| Placeholders.CompiledExpressionLinesUp | src/expr/expr_logical.go:61-97 | for any expression that compiles: arguments outnumber placeholders by exactly the lost bound values, and filling placeholders in order gives the statement with its values inline iff none is lost |
| Placeholders.ResolveFaithful | src/expr/common.go:105-255 | resolving keeps, for every tree, both what the node will print and what its clone will print, with the placeholders each loses |
| Placeholders.FuncRenders | src/expr/funcs.go:52-145 | COALESCE, CONCAT, SUBSTR and the unary functions print their inner text and arguments in the same order |
| Placeholders.CaseRenders | src/expr/case.go:150-259 | a CASE prints its arms and its default with text and arguments in step, and so does its clone |
| Placeholders.LookupRenders | src/expr/lookups_base.go:74-263 | every lookup prints left side, operator and right side with text and arguments in step |
| Placeholders.TransformsRender | src/expr/lookups_registry.go:120-194 | folding transforms over the left side wraps its text once per transform around a clone |
| Placeholders.TransformLosesPlaceholder | src/expr/common.go:105-185 | a concrete lookup whose compiled text and arguments no longer match |
| Placeholders.InLosesPlaceholder | src/expr/lookups_base.go:235-263 | a concrete IN whose compiled text and arguments no longer match |
| Placeholders.UnsupportedOperandsPanic | src/queryset_compiler_generic.go:227-251 | operands the operator tables cannot format make the whole expression panic, whatever surrounds them |
| ExpressionMeaning.LookupCodeMeans | src/expr/lookups_base.go:134-263 | the code of a lookup is its intended text with values inline, given that of its left side and operand |
| ExpressionMeaning.FuncMeans | src/expr/funcs.go:52-145 | the code of a function call is its intended text with values inline, given that of its parts |
| BooleanReading.ReadsFactor | src/expr/expr_logical.go:86-158 | a printed clause parses as one factor with the clause's own three-valued meaning, whatever follows |
| BooleanReading.ClauseListReads | src/queryset_compiler_generic.go:1444-1455 | clauses joined by AND parse iff each is readable, and then to their conjunction under every assignment |
| BooleanReading.ClausePrintsSkeleton | src/expr/expr_logical.go:86-158 | the compiled text of a clause is its boolean tokens with each condition compiled on its own |
| BooleanReading.WhereTextReadsBack | src/queryset_compiler_generic.go:979-988 | the text of a list of clauses parses back to their conjunction, and parses at all iff each is readable |
| ClauseWriters.WriteEach | src/queryset_compiler_generic.go:990-1005 | a list written through the builder is its items' code with separators, or the panic of the first that panics |
| ClauseWriters.WriteFields | src/queryset_types.go:133-171 | a table's fields written through the builder, those of the table between first |
| ClauseWriters.WriteLimitOffset | src/queryset_compiler_generic.go:1046-1062 | limit and offset written with one argument for each that is set |
| ClauseWriters.BuildSelectQuery | src/queryset_compiler_generic.go:459-504 | the statement built step by step is the code the laws about SELECT speak of, panics included |
| SelectMeaning.SelectLinesUp | src/queryset_compiler_generic.go:459-504 | any SELECT that compiles: arguments outnumber placeholders by exactly the bound values its expressions lose plus what the raw SQL columns of its joins bring beyond their placeholders; when each such column brings its values, replacing the k-th placeholder by the k-th argument gives the statement with values inline iff no expression loses one |
| SelectMeaning.KthPlaceholder | src/queryset_compiler_generic.go:459-504 | in a SELECT that loses nothing, with raw join columns bringing their values: the placeholder with k others before it stands for the k-th argument, and all else is written as it is |
| SelectMeaning.WhereClauseReadsBack | src/queryset_compiler_generic.go:979-988 | the WHERE clause inside a compiled SELECT parses to the conjunction of its filters |
| SelectMeaning.EntryReads | src/queryset_types.go:133-171 | the fields of one table keep text and arguments in step |
| SelectMeaning.JoinKeepsStep | src/queryset_compiler_generic.go:935-977 | any join with its chained conditions: the surplus of its arguments, and that it is its text with the values in place when each raw SQL column of it brings its values |
| SelectMeaning.ColumnKeepsStep | src/queryset_compiler_generic.go:336-400 | any formatted column, whatever its form: the surplus of its arguments; text and arguments are in step, and it is its text with the value in place, iff it is no update column and its raw SQL brings as many values as placeholders |
| UpdateQuery.BuildRow | src/queryset.go:2640-2698 | panics iff a non-nullable field set to its own value is null; otherwise yields the fields and the values of the plain ones in step |
| UpdateQuery.WriteSets | src/queryset_compiler_generic.go:812-850 | the SET list written through the builder takes values by a cursor |
| UpdateQuery.CursorStaysInside | src/queryset_compiler_generic.go:812-865 | the cursor never runs past a row's values, and ends at their number iff no plain field is computed by the model |
| UpdateQuery.CursorOnOwnValue | src/queryset.go:2643-2698 | at every plain column the cursor stands on that column's value iff no computed field before it left one behind |
| UpdateQuery.ClashShiftsValues | src/queryset.go:2643-2698 | with two admitted fields, the first a virtual field with its own SQL and a column name, the second column is assigned the first field's value |
| UpdateQuery.LibraryFieldsDoNotClash | src/queries.go:184-202 | fields that compute their SQL and are not saved, as all of the library's own, never leave a value behind |
| UpdateQuery.BuildUpdateQuery | src/queryset_compiler_generic.go:794-878 | the multi-object statement built step by step is the code the laws about UPDATE speak of |
| UpdateQuery.UpdateLinesUp | src/queryset_compiler_generic.go:794-878 | any multi-object UPDATE that compiles: the exact surplus of arguments; and, when the raw SQL columns of its joins bring their values, every placeholder receives its own column's or expression's value iff no expression loses one and in every object each column's value stands where the cursor finds it |
| UpdateQuery.LibraryUpdateLinesUp | src/queryset_compiler_generic.go:794-878 | for the library's own fields, with raw join columns bringing their values: iff no expression loses one |
| LikePattern.EscapedMatchesLiterally | src/queryset_compiler_generic.go:173-198 | without a backslash, LIKE on the escaped pattern is substring, prefix, suffix or equality, read literally |
| LikePattern.BackslashWitness | src/queryset_compiler_generic.go:173-198 | for every search string with a backslash a text on which pattern and relation disagree |
| LikePattern.LookupKeepsPromise | src/expr/lookups_base.go:114-170 | on each driver a pattern lookup means the relation it names, ignoring case iff its name or the column does, on all rows iff the search string survives escaping and is in lower case where the driver lowers it alone |
| LikePattern.BrokenPromise | src/queryset_compiler_generic.go:257-291 | the row on which any other search string goes wrong |
| LikePattern.LoweredMisses | src/queryset_compiler_generic.go:260-268 | a pattern that was lowered alone does not match the very string that was searched for, if that has an upper-case letter |
| RawStatement.PassesAreSimultaneous | src/expr/statement.go:141-187 | for every statement: the successive passes find exactly the markers one reading from left to right finds iff no marker has one of another kind inside; and replace them as if all at once when no table marker has a field marker inside |
| RawStatement.LexShows | src/expr/statement.go:17-21 | the reading from left to right loses nothing: its characters and markers written back are the statement |
| RawStatement.FindsMore | src/expr/statement.go:141-187 | a pass finds all markers of its kind, and more exactly when a marker of another kind hides one |
| RawStatement.HiddenMarker | src/expr/statement.go:17-21 | a field marker in which the pass for values finds an index |
| RawStatement.RawStatementRenders | src/expr/statement.go:110-129 | for every statement whose value markers name values: as many columns and tables are looked up as there are markers iff none hides a field or table marker, and then parse and render together give the substitution under an exact condition, with and without markers |
| RawStatement.ArgumentsInOrder | src/expr/statement.go:119-128 | arguments come in the order of their placeholders iff no column with arguments follows a value |
| RawStatement.ParseExprStatement | src/expr/statement.go:141-187 | panics iff a value marker names no value; the k-th value is the one its index names |
| RawStatement.Statement.Resolve | src/expr/statement.go:56-108 | looks every field and table up in the model, and leaves a resolved statement as it is |
| RawStatement.Statement.SQL | src/expr/statement.go:110-129 | the rendered text with the columns' arguments and then the values; unformatted without columns and tables |
| RawCode.RawExpression | src/expr/statement.go:110-187 | a statement with its columns' code put in: it has an argument for each placeholder iff there are as many values as question marks, and it says what it should when no column with arguments follows a value, and only then unless a value equals such an argument |
| MigrationGraph.Planner.Visit | src/migrator/engine.go:604-622 | a visited migration is listed after all it depends on, or its dependencies lead back to it |
| MigrationGraph.BuildDependencyGraph | src/migrator/engine.go:548-634 | succeeds iff every dependency is in the set and there is no cycle, in any map order; lists every migration once, after its dependencies |
| MigrationGraph.PlanMeansNoCycle | src/migrator/engine.go:548-634 | only a closed acyclic graph has a plan |
| MigrationGraph.EveryMigrationHasANode | src/migrator/engine.go:548-570 | no migration is lost as long as no two share a key |
| MigrationGraph.IncrementalPlan | src/migrator/engine.go:218-333 | leaving the applied migrations out plans iff none left depends on one of them |
| MigrationGraph.SecondMigrationIsStuck | src/migrator/engine.go:218-333 | two migrations that can be planned together, of which the second cannot once the first is applied |
| MigrationDiff.Diff | src/migrator/engine_table.go:272-306 | fields in one table only, and fields in both that are not equal |
| MigrationDiff.MakeMigrationDiff | src/migrator/engine.go:637-726 | creates, drops or emits a diff; a migration is needed iff there are actions |
| MigrationDiff.EmittedMigrates | src/migrator/engine.go:637-726 | the actions, in order, are legal at each step on the old schema and leave the new one, in any order of the index maps |
| MigrationDiff.EmitsNothing | src/migrator/engine.go:637-726 | a diff emits nothing iff the tables are the same up to column and index equality |
| MigrationDiff.TableIsItself | src/migrator/engine_column.go:237-347 | a table is the same as itself |
| MigrationDiff.RenameIndexes | src/migrator/engine.go:710-724 | the search for renamed indexes finds none |
| MigrationDiff.DropIndexes | src/migrator/engine.go:691-699 | drops exactly the indexes that are gone or differ, in any order |
| MigrationDiff.RenamedFieldKeepingItsColumn | src/migrator/engine.go:637-726 | on the columns of a database the actions are legal iff the new fields have columns of their own that no old field has, and every field of both tables keeps its column |
| MigrationDiff.MovedColumn | src/migrator/sql/mysql/table.go:246-253 | a field that only moves to another column is altered: legal by name, not by column |
| MigrationNames.FileNameRoundTrip | src/migrator/engine_utils.go:15-42 | a parsed file name gives back the order, and the name iff it has no dot |
| MigrationNames.GeneratedNameParses | src/migrator/engine_utils.go:43-112 | a generated name parses to its order and what the migration does iff that has no dot |
| MigrationNames.NamingPanics | src/migrator/engine_utils.go:43-112 | naming a diff panics iff it changes only indexes and takes one away |
| MigrationNames.DependencyRoundTrip | src/migrator/engine.go:30-50 | a dependency survives being stored iff app and model have no colon |
| MigrationNames.DependencyReadBack | src/migrator/engine.go:35-50 | whatever can be read is written as it was, and everything that is written can be read |
| MigrationNames.KeysTellApart | src/migrator/engine.go:548-570 | the planner's keys tell migrations apart when no app or model has a colon |
| Transactions.Driver.End | src/queryset_transactions_types.go:43-77 | ending a transaction closes it whether or not the commit succeeds, and nothing else |
| Transactions.Compiler.StartTransaction | src/queryset_compiler_generic.go:409-422 | the transaction in the slot, or a new one |
| Transactions.Compiler.WithTransaction | src/queryset_compiler_generic.go:424-435 | fills the slot only when it is empty |
| Transactions.EndTx | src/queryset_transactions_types.go:43-77 | a wrapped transaction is ended only while its slot is filled, and empties it first |
| Transactions.QuerySet.GetOrCreateTransaction | src/queryset.go:379-385 | one that does nothing inside another transaction or without implicit ones, else a new one |
| Transactions.QuerySet.StartTransaction | src/queryset.go:353-377 | by hand inside a transaction it returns the outer handle |
| Transactions.Write | src/queryset.go:2148-2207 | every write method leaves slot and open transactions as they were, and commits the one it began iff it succeeds |
| Transactions.RunBulk | src/queryset.go:2271-2330 | a bulk operation keeps the slot and the open transactions whatever fails |
| Transactions.RunBatches | src/queryset.go:2746-2820 | so does a run of batches |
| Transactions.CallSave | src/models/model.go:870-945 | so does a model's own save, with queries of its own |
| Transactions.StartTransaction | src/queryset_transactions.go:54-86 | one that does nothing if the context has one for the database, else a new one |
| Transactions.InTransaction | src/queryset_transactions.go:88-149 | runs code in a transaction that is committed iff the code succeeds and wants it |
| Transactions.Exec | src/queryset.go:2024-2070 | any nesting of operations leaves open exactly what it found open |
| Transactions.HistoryCounts | src/queryset_transactions_types.go:43-77 | in any history a transaction is begun and ended at most once, and is open exactly between the two |
| Transactions.EachEndedOnce | src/queryset_transactions_types.go:43-77 | a run that leaves open what it found open ended exactly the transactions it began, each once |
| Transactions.Run | src/queryset.go:2024-2207 | any nested program with any step failing: each transaction it begins ends in exactly one commit or rollback, outer ones are not ended, and the slot is as it was |
| Transactions.CommitByHandInside | src/queryset.go:353-377 | committing by hand inside a transaction ends the outer one |
| Transactions.BoundToStaleContext | src/queryset.go:335-351 | a queryset bound to the context a write method left behind begins no transactions |
| AliasGenerator.SplitJoin | src/alias/alias.go:64-72 | chain keys tell chains of names without dots apart |
| AliasGenerator.NumbersTellApart | src/alias/alias.go:85-100 | aliases with different numbers differ, whatever the tables are called |
| AliasGenerator.Generator.GetTableAlias | src/alias/alias.go:62-106 | the state and the answer the laws about runs speak of |
| AliasGenerator.StableAndUnique | src/alias/alias.go:62-106 | over any run of requests two answers are the same iff their chain keys are |
| AliasGenerator.RootCollides | src/alias/alias.go:74-79 | a table without a chain shares its alias with a chain iff it is called like one |
| AliasGenerator.PrefixMatters | src/alias/alias.go:24-30 | changing the prefix between requests can repeat an alias |
| AliasGenerator.WalkFields | internal/utils.go:108-178 | succeeds iff the path leads over relations to a field; one alias per prefix of the chain |
| AliasGenerator.SharedPrefixes | internal/utils.go:133-166 | two walks give the same alias exactly where their paths agree so far |
| AliasGenerator.SelectThenResolve | src/queryset.go:1215-1260 | a selected relation and a later expression agree on every shared prefix, and differ everywhere else |
| JoinPlans.KeyTells | src/queryset_types.go:50-106 | joins with the same condition text, in which a column without a value writes that it has none, introduce and need the same aliases |
| JoinPlans.DedupKeys | src/queryset.go:743-749 | deduplicated joins have every key once and lose none |
| JoinPlans.ScopeExactly | src/queryset.go:652-760 | every condition mentions only the base table, its own alias or an earlier one iff what each join needs was joined before |
| JoinPlans.AliasesOnce | src/queryset.go:652-760 | no alias is joined twice iff every path is always joined by the same condition |
| JoinPlans.ThroughApart | src/queryset.go:790-803 | the alias of a table between is no other alias |
| JoinPlanner.AddSubProxies | src/queryset.go:979-1110 | proxies at any depth are joined in field order, each below the one before it, and select all fields of their models under the aliases they are joined by |
| JoinPlanner.Query.AddProxyChain | src/queryset.go:949-972 | only the joins that are new, with the keys of all noted; all infos |
| JoinPlanner.Query.AddJoinForFK | src/queryset.go:652-758 | the join of a direct relation and its proxies, when new, and the fields selected over them |
| JoinPlanner.Query.AddJoinForM2M | src/queryset.go:760-939 | both joins of a relation over a table and its proxies, when new, and the fields selected over them, those of the table between included |
| JoinPlanner.Query.SelectPath | src/queryset.go:1215-1300 | panics iff the path leads nowhere and is no annotation, or its relation lacks a table between; otherwise the joins and infos the path asks for |
| JoinPlanner.Query.SelectItem | src/queryset.go:1144-1320 | one item keeps the query valid and adds the joins and the selected fields it asks for |
| JoinPlanner.Query.Select | src/queryset.go:1129-1322 | a new query whose fields are exactly those of the selection, whose joins are those there were and the new ones; the receiver is unchanged |
| JoinPlanner.JoinsOnce | src/queryset.go:1129-1322 | over any number of selections joins have every key once and the map has exactly their keys |
| JoinPlanner.SelectAgain | src/queryset.go:1129-1322 | selecting again what was selected adds no join |
| JoinPlanner.SelectionInScope | src/queryset.go:1129-1322 | with parents selected before their children every join is in scope, across repeated selections |
| JoinPlanner.SelectAll | src/queryset.go:1129-1322 | after any number of selections the joins of the query have every key once, and with parents selected before their children every condition mentions only tables joined before |
| JoinPlanner.SelectedColumns | src/queryset.go:1129-1322 | every column a selection writes belongs to the base table or to a table the query joins, and a complete selection scans the k-th value into the field of the k-th such column |
| JoinPlanner.AliasStandsForModel | src/queryset.go:1230-1290 | a path's alias is given to the model the path leads to iff the selected field is no relation to another model |
| JoinPlanner.JoinedTwice | src/queryset.go:1270-1290 | otherwise the alias is joined twice when the two relations end on different columns |
| JoinPlanner.SelectBookAndShop | src/queryset.go:1270-1290 | a selection after which two tables are joined under one alias |
| SharedChains.AddSubProxies | src/queryset.go:979-1110 | the chains of all proxies are right iff no model among them has two proxies or more while its own chain has room in its array; the first proxy of a model with room gets the name of the last |
| SharedChains.SelectChains | internal/utils.go:132-160 | for a selected path: the proxies' chains are right iff every chain that two or more proxies extend is as long as the path's list was made for, doubled some times; the first proxy is wrong on a path of three or more with a star |
| SharedChains.FullWhenDoubled | internal/utils.go:132-160 | a list is full exactly at the length it was made for, doubled any number of times |
| Projection.WriteFields | src/queryset_types.go:133-171 | the columns and commas one table writes |
| Projection.ListReadsExactly | src/queryset_compiler_generic.go:476-484 | the written list reads as one column per selected field, in order, iff every table selects a field and every field writes something |
| Projection.AmountOfColumns | src/queryset_compiler_generic.go:519-526 | the executor counts the places rows are scanned into |
| Projection.GetScannableFields | src/queryset.go:3034-3199 | the i-th place is numbered i and belongs to the i-th column; a relation's way up reaches the root iff the root's primary field was selected before that relation; with each info's model the one its chain leads to, it fails iff a field or relation does not exist or fields without a chain come before the root's primary field; every place has the kind of the relation its chain ends in |
| Projection.AuthorBeforeBook | src/queryset.go:3034-3199 | a selection whose way up to the root is cut, and the same one in the other order, which is whole |
| Projection.ColumnsAreScanned | src/queryset.go:3034-3199 | column and place agree everywhere iff the selection is complete; else the list is unreadable or too short |
| DedupeForest.ChainPasses | src/queryset_dedupe.go:189-245 | a chain passes exactly the nodes on the way to its end, before its first empty multi-valued link |
| DedupeForest.RunIsPrefixTree | src/queryset_dedupe.go:153-245 | after any rows the forest is the prefix tree of the cut chains, siblings unique and in first-seen order, objects those of the first row |
| DedupeForest.ReinsertionChangesNothing | src/queryset_dedupe.go:83-104 | inserting a root or a chain again at any later time changes nothing |
| DedupeRows.PutChainFits | src/queryset_dedupe.go:189-245 | inserting a chain into the linked store does to it what it does to the forest |
| DedupeRows.Rows.AddRoot | src/queryset_dedupe.go:153-181 | panics iff there is no key; adds the root unless it is there |
| DedupeRows.Rows.AddRelationChain | src/queryset_dedupe.go:189-245 | panics iff the root is missing; otherwise puts the chain in |
| DedupeRows.Rows.AddRow | src/queryset.go:1740-1756 | a row keeps the store equal to the forest, panics included |
| DedupeRows.RowsRun | src/queryset.go:1661-1758 | adding rows is running their roots and chains in order |
| DedupeCompile.CompileNode | src/queryset_dedupe.go:252-309 | everything at and below an object is done once, children before parents, through object's hook first; what stops it is a failing hook or an object without a key |
| DedupeCompile.CompileRelation | src/queryset_dedupe.go:258-295 | a relation is set once, after the hooks of its objects, with their keys in order |
| DedupeCompile.NodeFits | src/queryset_dedupe.go:22-50 | the linked store has the shape of the forest at every depth |
| DedupeQuery.BuildChainParts | src/queryset_dedupe.go:367-415 | panics iff a multi-valued link has no key or a key cannot be read; otherwise the links from the root down |
| DedupeQuery.BuiltChainsAreWhole | src/queryset_dedupe.go:206-216 | a chain that could be built is never cut |
| DedupeQuery.RowGoesThrough | src/queryset.go:1711-1756 | a row stops in an error iff its root cannot be filed, and goes through iff its root can be filed, its chains can be built, and each begins with a key that a root is filed under |
| DedupeQuery.FoldedIsPrefixTree | src/queryset.go:1661-1758 | folding rows is one run of roots and chains, so the prefix tree |
| DedupeQuery.Compile | src/queryset_dedupe.go:311-345 | one row per root in first-seen order, roots without an object left out; every event there is, once |
| DedupeQuery.FoldAndCompile | src/queryset.go:1661-1761 | rows are answered iff they fold, every object has a key and every hook works; then one row per root, each relation set and each hook run once |
| ResultRows.NewRows | src/queryset_dedupe.go:72-134 | the places that may repeat, whether any multiplies rows, the place that stands for the root; refused iff rows multiply and nothing of the root is selected |
| ResultRows.RowGoesThrough | src/queryset.go:1711-1756 | a row of a selection that was scanned: it goes through iff its root can be filed, its chains can be built, and every chain hangs on the root, its primary field being selected first, or meets the key of some root |
| ResultRows.RootedRowsFold | src/queryset.go:1661-1758 | with every repeating relation hanging on the root, the rows fold iff each fits on its own: every root has a primary key and every chain can be built |
| ResultRows.NameAndBooks | src/queryset.go:1711-1756 | a selection without the root's primary field: a row panics, or its related object is lost when the keys coincide |
| ResultRows.NameAndProfile | src/queryset_dedupe.go:95-134 | the same with a single-valued relation and a root without any key, filed under its place |
| ResultRows.NameAndIsSelected | src/queryset.go:3034-3199 | both selections can be scanned |
| ResultRows.All | src/queryset.go:1631-1761 | the whole query, from its selection: scanning, the refusal, folding and compiling; it answers iff it is not refused, the rows fold, every object has a key and every hook works |
| Pluck.WalkAllFindsRoutes | src/queryset_relations_fields.go:245-397 | a walk that does not fail finds the end of every route once, in depth-first order, and nothing else |
| Pluck.Plucker.WalkFieldValues | src/queryset_relations_fields.go:245-397 | the consumer is given exactly what the walk finds, until it has had enough |
| Pluck.ConsumerSees | src/queryset_rows.go:55-78 | consecutive indexes, all items or exactly as many as were wanted |
| Pluck.PluckGoesThrough | src/queryset_rows.go:63-77 | plucking goes through iff no walk fails and no row has a nil at its root |
| Pluck.NilStopsPlucking | src/queryset_rows.go:63-77 | a nil over a table between that stops plucking at the root of a row, and is skipped one relation further down |
| Pluck.PluckRows | src/queryset_rows.go:55-78 | every route's end once, depth first, indexes from zero, or the first ones wanted |
| Pluck.PluckAgain | src/queryset_rows.go:55-61 | a second iteration goes on counting |
| RelationSets.RelM2M.SetValues | src/queryset_relations_values.go:249-292 | the set is made anew in order, nil relations skipped; panics iff one has no key or no through object |
| RelationSets.RelM2M.GetValues | src/queryset_relations_values.go:295-309 | the relations in order |
| RelationSets.RelRevFK.SetValues | src/queryset_relations_values.go:111-137 | objects, nil ones skipped, are put into what is there already under their own key or that of their fields; panics iff one has neither |
| RelationSets.IntoKeeps | src/queryset_relations_values.go:111-137 | what was there keeps its place |
| RelationSets.IntoHas | src/queryset_relations_values.go:111-137 | the keys are those that were there and those of the objects |
| RelationSets.CollectDistinct | src/queryset_relations_values.go:249-309 | relations with different keys come out as they went in |
| RelationSets.TwiceIsOnce | src/queryset_relations.go:472-505 | a relation the loop appended twice is in the set once |
| RelationSets.RemovesExactly | src/queryset_relations.go:472-505 | of relations held under different keys: the set holds exactly those whose unique key was not removed, once each and in order, iff no removed one is kept by the key its field holds |
| RelationSets.RemovedYetKept | src/queryset_relations.go:472-505 | a relation that stays although its unique key was removed |
| RelationSets.RemoveTargets | src/queryset_relations.go:414-506 | when removing succeeds, and that otherwise the set is unchanged |
| RelationSets.AddTargets | src/queryset_relations.go:366-389 | new relations come after those that are there |
| RelationSets.AddThenRemove | src/queryset_relations.go:366-506 | removing a target that was just added gives back the set as it was |

## Left out

- Drivers, query execution, schema-editor DDL, file access, logging, signals, actors, caches and application wiring: calls into code outside the model. They appear as outcomes that may fail, as a driver trace, or as parameters.
- Reflection over models, conversion of values for the driver and reading JSON: models, keys and values are abstract, and defaults are compared by the identity of their JSON text.
- Rebinding placeholders to numbers, and subqueries whose text is already rebound.
- A literal question mark inside raw text or an identifier counts as text, not as a placeholder. Raw statements and virtual fields enter SELECT and UPDATE as code with an argument for each placeholder; RawCode.RawExpression says when a raw statement is that, and when the arguments are in their order.
- BooleanReading.WhereTextReadsBack: the text is read as the tokens the code wrote; that the text of a single condition, which may be any SQL, is not cut into other tokens by the database is not shown.
- Formatting of floating-point numbers is reduced to digits, and comparison of minimum and maximum values does not model NaN.
- CASE arms without THEN, and NOW with its constructor: they panic before anything is compiled.
- Ordering of migrations of one model by their order number: the graph has edges for declared dependencies only.
- That creating a table creates its indexes, and that a database drops indexes with a removed column, is taken from the schema editors.
- JoinPlanner.AddSubProxies: chains are values there, and in what JoinPlanner and Projection prove of selected fields; SharedChains.SelectChains says exactly when the slices of the code agree with them. Other slices that sibling querysets may share (Filter, Having) are copied in the model.
- Models whose GetQuerySet hands out one shared queryset: each call gives a new one in the model of transactions.
- Joins added by related querysets through AddJoin: the plans cover Select only. Named expressions and ready-made infos given to Select are not among its items.
- Cyclic proxies: the tree of proxies of a model is finite in the model.
- The branch of addSubProxies for fields without a target clause: every proxy field has one, so it cannot be reached.
- SharedChains.AddSubProxies: a full array is replaced by one twice its size, as the Go runtime does for lists of a few names; for long lists it rounds up.
- DedupeRows.Rows.AddRow: objects and relations of the deduplicator are records in a numbered store rather than objects on a heap; keys given out once are never reused, so aliasing is kept. Annotations of roots are not followed.
- DedupeCompile.CompileNode: setting related objects and through models on a model is one event each; a hook works or fails for an object, the same at every call.
- MigrationDiff.MovedColumn: what each database does with an altered column is not modelled further: MySQL modifies the column of the new name and Postgres that of the old one, while SQLite builds the table anew.
- JoinPlans.ScopeExactly: names without colons and equals signs, and a base table called like no alias, so that condition text can be read back; AliasGenerator.RootCollides says when the latter fails.
- SelectMeaning.JoinKeepsStep: a raw SQL column that brings fewer or more values than placeholders has no intended reading, so the laws about meaning ask for columns that bring theirs; how far text and arguments are then apart is exact for every statement (SelectMeaning.SelectLinesUp, UpdateQuery.UpdateLinesUp).
- Projection.GetScannableFields: relations are keyed by the list of their names; AliasGenerator.SplitJoin shows the joined text to be as good. For infos whose model is not the one their chain leads to (JoinPlanner.AliasStandsForModel), what succeeds is right, but not when it fails. Linking foreign-key instances to their parents while scanning is not modelled.
- Pluck.WalkAllFindsRoutes: typed nil pointers that crash inside a model's own code are not modelled, nor an untyped nil held by a field whose type is known and binds no values, which crashes the walk itself; an unset relation field holds the empty relation it is given.
- RelationSets.RemoveTargets: targets are already unpacked from nested lists; saving new targets and creating through objects are the caller's. SetTargets and ClearTargets would add nothing to SetValues.
