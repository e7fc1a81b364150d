# Code-review backend: Python analyser and request decisions, in Dafny

This project models two parts of a code-review service's backend.

The **Python source analyser** `ASTParser` (`config.py`) takes a Python syntax tree and the source text. It does four things:

- It counts total, blank, comment and code lines.
- It walks the tree with `ast.walk` and appends a `FunctionInfo` per function definition, a `ClassInfo` per class and one string per imported name to its lists.
- It keeps a running cyclomatic-complexity total.
- It reports a summary of the collected records.

The **request decisions** of the HTTP layer (`main.py`) are also modelled:

- `AuthService` registration, login and token-to-user resolution.
- The ownership guard of the analysis endpoints.
- The choice of the latest analysis and the status a project reports.

## Layout

| file | module | models |
|---|---|---|
| `wrappers.dfy` | `Wrappers` | `Option` (Python's `Optional`) |
| `seq_facts.dfy` | `SeqFacts` | generic sequence facts used by the proofs |
| `py_ast.dfy` | `PyAst` | the syntax tree (`Node`: a kind plus its children, in `ast.iter_child_nodes` order) and `ast.walk` as a breadth-first traversal (`WalkFrom`, `Walk`) |
| `line_count.dfy` | `LineCount` | `str.split('\n')`, `str.strip()` and the blank/comment/code counts of `parse_code` |
| `complexity.dfy` | `Cyclomatic` | the decision-point weights of `_calculate_complexity` and a structural definition of complexity |
| `calls.dfy` | `Calls` | the call names `_find_function_calls` gathers, defined structurally |
| `records.dfy` | `Records` | `FunctionInfo`, `ClassInfo`, import strings, and what one walk appends |
| `summaries.dfy` | `Summaries` | the figures of `get_summary` |
| `ast_parser.dfy` | `Analyzer` | the class `AstParser` with its four mutable fields and its methods |
| `auth_service.dfy` | `Auth` | the user table (`UserTable`, whose `CreateUser` inserts in place), login and token resolution |
| `analysis_api.dfy` | `AnalysisApi` | `run_analysis`, `get_analysis_results`, `get_analysis_status` |

### Design

**The syntax tree is data.** `ast.parse`, `ast.get_docstring` and `ast.unparse` are not modelled. Their results are fields of the node kinds:

- a `FunctionDef` carries its argument names, its return annotation as text and its docstring;
- a `ClassDef` carries `baseCount`: its first `baseCount` children are `node.bases`;
- the callee of a `Call` is the call's first child, as `Call.func` is in Python.

A class's remaining children are its keywords, body and decorators. Only body statements can be function definitions, so scanning all of them finds the same methods that `node.body` holds. An `async def` is an `AsyncFunctionDef` in Python, which the analyser ignores, so it is `Other` here.

**`ast.walk` is breadth-first.** It is modelled as a function over a queue: pop the front node, append its children, yield the node. Complexity and call names are defined again by structural recursion over the tree. Lemmas prove that counting over the breadth-first walk gives the same result as the structural definitions (`WalkComplexity`, `WalkCallNames`). The methods that loop over the walk, as the source does, are proved against the structural definitions.

**`AstParser` is a class.** Its fields `functions`, `classes`, `imports` and `totalComplexity` are updated in place by `AnalyzeFunction`, `AnalyzeClass`, `AnalyzeImport` and `AnalyzeTree`. Each method states every field's new value in terms of the old state: the records it appends are fixed by `Describes` and `DescribesClass` (up to the order of call names, which the source leaves open), and the new total is the old one plus their complexities.

- `Describes(info, n)` says that `info` is the faithful `FunctionInfo` of the definition `n`.
- `DescribesClass` says the same of a `ClassInfo`.
- `Consistent()` says that `totalComplexity` is the sum of the recorded complexities.

The constructor establishes `Consistent()` and every method preserves it. So a parser that starts fresh always holds this sum, however many trees it has parsed. Nothing is ever reset, so a second `parse_code` appends to the first one's records.

**A method is recorded twice.** `_analyze_class` analyses the methods in a class body. The walk then reaches each of those `FunctionDef` nodes again and analyses them a second time. `MethodAnalysedTwice` proves this: each such method appears at least twice among the recorded definitions. Because `Consistent()` holds, its complexity is also counted twice in the total.

**Foreign calls are parameters.** Password hashing (`hash`, `verify`), JWT encoding and decoding (`encode`, `decode`), the clock (`now`, in seconds) and `ProjectService.get_project` (`getProject`) are function parameters. `DecodeInvertsEncode` states what the JWT library is trusted to do. `get_current_user` never looks at `is_active`, so `TokenResolvesToUser` holds for inactive users too: a token issued before an account was deactivated still resolves to that account until it expires.

## Model

| member | source | states |
|---|---|---|
| `LineCount.SplitLines` | config.py:106-107 | `source.split('\n')` has one piece more than there are newlines (so the empty text has one line), and no piece contains a newline |
| `LineCount.JoinSplitLines` | config.py:106 | joining the pieces with '\n' gives back the source text exactly |
| `LineCount.BlankIffAllSpace` | config.py:108 | a line counts as blank exactly when every character is Python whitespace (the empty line included) |
| `LineCount.StripLeftShape` | config.py:109 | `lstrip` removes exactly the leading whitespace run, and what remains is empty or starts with a non-whitespace character |
| `LineCount.CommentHashFirst` | config.py:109 | a line counted as a comment has '#' immediately after its leading whitespace |
| `LineCount.HashFirstComment` | config.py:109 | a line whose first non-whitespace character is '#' is counted as a comment |
| `LineCount.CommentIffHashFirst` | config.py:109 | a line counts as a comment exactly when its first non-whitespace character is '#' |
| `LineCount.LinesPartition` | config.py:108-110 | blank, comment and code lines partition the lines: a stripped-empty line never starts with '#' |
| `LineCount.CountLines` | config.py:105-110 | total lines = newlines + 1; blank and comment lines are the counts of blank and comment lines; code lines = the number of lines that are neither blank nor comment, hence never negative; blank + comment + code = total |
| `PyAst.WalkFrom` | config.py:128 | the breadth-first walk visits as many nodes as the queued trees hold |
| `PyAst.QueuedIsWalked` | config.py:128 | every node in the walk's queue is visited |
| `PyAst.WalkedChildIsWalked` | config.py:128 | a child of a visited node is visited too, so `ast.walk` reaches every nested definition |
| `Cyclomatic.WalkComplexity` | config.py:215-228 | 1 plus the weights summed over `ast.walk(n)` equals the structural complexity: +1 per If/While/For/ExceptHandler/Break/Continue and +(operands - 1) per BoolOp, anywhere in the subtree including nested functions |
| `Cyclomatic.ComplexityAtLeastOne` | config.py:217-226 | the complexity of a parsed tree is at least 1 |
| `Analyzer.AstParser.CalculateComplexity` | config.py:215-228 | the loop over `ast.walk(node)` returns 1 plus the structural decision count of `node` |
| `Calls.WalkCallNames` | config.py:233-238 | the names gathered over `ast.walk(n)` are exactly the `Name.id`/`Attribute.attr` callees of every call in the subtree |
| `Analyzer.AstParser.FindFunctionCalls` | config.py:230-239 | the result has no duplicates and holds exactly the callee names of the calls under the node; its order is left open |
| `Records.NameIds` | config.py:178-181 | the recorded bases are exactly the ids of the bases that are plain names, and no more entries than bases |
| `Records.NameIdsAppend` | config.py:179-181 | the names are collected in base order: the ids of a concatenation are the ids of each part, in turn |
| `Records.FunctionDefs` | config.py:189-190 | the methods of a class are exactly the function definitions among its body items |
| `Records.ImportEntries` | config.py:205-213 | an `import` records its alias names unchanged; a `from ... import` records one entry per alias |
| `Records.ImportFromEntriesRoundTrip` | config.py:210-213 | a `from m import a` entry splits at its last '.' into the module (`''` when absent) and the alias name |
| `Records.DescribedComplexities` | config.py:151-152 | records that describe a list of definitions carry exactly those definitions' complexities |
| `Records.MethodAnalysedTwice` | config.py:128-132 | a method in a class body that the walk reaches is recorded at least twice: once by `_analyze_class`, once as a `FunctionDef` of the walk |
| `Analyzer.AstParser.constructor` | config.py:83-87 | a new parser has empty lists, a zero total, and a total equal to the sum of recorded complexities |
| `Analyzer.AstParser.AnalyzeFunction` | config.py:136-173 | appends exactly one `FunctionInfo`, which describes the definition, and adds exactly its complexity to the total; nothing else changes |
| `Analyzer.AstParser.Distinct` | config.py:239 | `list(set(calls))`: the result has no duplicates and holds exactly the names of the input |
| `Analyzer.AstParser.BaseNames` | config.py:178-181 | the base names collected are the ids of the bases that are plain names, in order |
| `Analyzer.AstParser.AnalyzeMethods` | config.py:188-192 | each function definition of the class body is analysed in order: the infos describe exactly those definitions, are appended to `functions`, and their complexities are added to the total |
| `Analyzer.AstParser.AnalyzeClass` | config.py:175-203 | appends one `ClassInfo` describing the class; the methods analysed on the way are appended to `functions` in body order, and their complexities to the total |
| `Analyzer.AstParser.AnalyzeImport` | config.py:205-213 | appends the node's import entries to `imports` and changes nothing else |
| `Analyzer.AstParser.Visit` | config.py:129-134 | dispatching one visited node appends what `VisitFunctions`, the class record and `ImportEntries` say, and keeps the total consistent |
| `Analyzer.AstParser.AnalyzeTree` | config.py:126-134 | after the walk, the new `functions`, `classes` and `imports` are exactly the records of the walked nodes in walk order; the total grows by their complexities, and a consistent parser stays consistent |
| `Analyzer.AstParser.ParseCode` | config.py:99-121 | the records of the walked tree are appended, the total grows by their complexities, and the result reports the parser's lists and total and the line statistics of the source text |
| `Analyzer.AstParser.GetSummary` | config.py:241-251 | counts of the lists; `max_complexity` is 0 without functions and otherwise the largest recorded complexity; undocumented counts never exceed the totals |
| `Summaries.MaxComplexity` | config.py:248 | 0 for no functions, otherwise an upper bound of every complexity that some function attains |
| `Summaries.FunctionsWithoutDocstrings` | config.py:249 | at most the number of functions, and 0 exactly when every function has a docstring |
| `Summaries.ClassesWithoutDocstrings` | config.py:250 | at most the number of classes, and 0 exactly when every class has a docstring |
| `Auth.FindByUsername` | main.py:366 | finds nothing exactly when no user has the name, and otherwise the first user with that name |
| `Auth.FindMember` | main.py:404-405 | with unique usernames, looking up a stored user's name finds that user |
| `Auth.UserTable.CreateUser` | main.py:338-361 | refuses with 400 and leaves the table unchanged when the email or the username is taken; otherwise adds exactly one active user storing the hash of the password; the table's uniqueness constraints are preserved |
| `Auth.Authenticate` | main.py:364-380 | succeeds exactly for a known name, a verified password and an active account; a missing name or a wrong password for the first user of that name gives 401; a verified password on an inactive account gives 403, and 403 is given for nothing else |
| `Auth.GetCurrentUser` | main.py:393-412 | 401 when the token does not decode and 401 when its `sub` names no user; otherwise the user named by `sub` |
| `Auth.TokenCarriesUser` | main.py:383-390 | while valid, the token decodes to the payload `sub` = username, `user_id` = id, `exp` = issue time + 3600 s |
| `Auth.TokenResolvesToUser` | main.py:383-390 | if decoding inverts encoding before expiry, a token made for a stored user resolves back to that user for the 60 minutes it is valid |
| `AnalysisApi.LatestAnalysis` | main.py:225-227 | nothing exactly when the project has no analysis; otherwise an analysis of the project whose `created_at` is the latest |
| `AnalysisApi.OwnedProject` | main.py:219-222 | 401 from token resolution comes first; then 404 exactly when the project is not found for the resolved user |
| `AnalysisApi.RunAnalysis` | main.py:185-207 | accepted exactly when the guard passes, with the requested project id; otherwise the guard's error |
| `AnalysisApi.GetAnalysisResults` | main.py:210-232 | the guard's error first; 404 exactly for an owned project without analyses; an owned project with analyses gets its latest analysis |
| `AnalysisApi.GetAnalysisStatus` | main.py:235-260 | the guard's error first; `not_started` exactly when the owned project has no analysis; succeeds exactly for an owned project; otherwise `completed` if the latest analysis is completed, else `processing`, with that analysis's id |
| `AnalysisApi.StatusAgreesWithResults` | main.py:224-260 | the status endpoint reports `not_started` exactly when the results endpoint has no analysis, and otherwise names the analysis the results endpoint returns |

## Left out

- `parse_file` (config.py:89-97): file I/O, and the exception it swallows.
- `ast.parse` and its `SyntaxError`: the tree is an input, so a syntax error cannot arise.
- `ast.unparse` and `ast.get_docstring`: their results are supplied as node fields.
- `average_complexity` in `get_summary`: floating-point division.
- Logging.
- `Settings` and environment loading: configuration only. The one constant used, the 60-minute token lifetime, is `AccessTokenExpireMinutes`.
- `database.py`: table definitions without behaviour.
- The FastAPI application, its routers and dependency injection. The one thing kept is that the token's user is resolved before an endpoint body runs.
- `BackgroundTasks` and the analysis orchestrator: `RunAnalysis` only decides whether the request is accepted.
- `upload_files`, project creation, listing and deletion: `ProjectService` is not part of this model.
- bcrypt and JWT internals, and `datetime.utcnow()`: these are parameters.
- Aliasing: `parse_code` returns the parser's own lists, so a later parse changes an earlier result. The model returns copies of the values.
- Row order: the model resolves `.first()` as the first row in table order. Among analyses with equal `created_at`, `LatestAnalysis` takes the earliest stored; the database leaves that order open.
- Ids: how the database assigns ids is abstracted as a counter `nextId` above every existing id.
- Cyclomatic.ComplexityAtLeastOne: assumes every `and`/`or` has at least two operands, as `ast.parse` guarantees. A hand-built `BoolOp` with fewer operands would lower the count below 1.
