# aifei-go: a verified model

This project models the parts of aifei-go whose behaviour emerges from many steps, and proves what
those steps keep. It is written in Dafny 4.11 and needs no library; `dafny verify dfyconfig.toml`
checks all of it.

These cores are modelled, each with its outside world left arbitrary:

* **Flow engine** (`flow/`). `flow_spec.dfy` says what one evaluation computes, as functions over a run
  state, with tasks, callbacks and conditions as arbitrary functions of the variables. `flow_engine.dfy`
  is the engine itself in the source's form, an exchanger whose flags, counters and stacks are updated
  in place by recursive methods, proved equal to those functions. On top of the functions: which links
  gateways follow and when tasks run, told from links and conditions (`flow_choices.dfy`), budgets and
  the stop (`flow_runs.dfy`), parallel joins (`flow_joins.dfy`), checkpoint and resume on trees
  (`flow_trees.dfy`, `flow_resume.dfy`, `flow_chunks.dfy`), loops, forks and choices as structured
  programs (`flow_programs.dfy`), the stepper (`flow_stepper.dfy`) and the construction of graphs
  (`flow_graph.dfy`).
* **Template expressions** (`enjoy/`). Lexer and parser as classes that advance their fields
  (`expr_lexer.dfy`, `expr_parser.dfy`), the grammar they compute (`expr_grammar.dfy`), a printer with
  minimal parentheses (`expr_syntax.dfy`), round trips on tokens and on text (`expr_rules.dfy`,
  `expr_printing.dfy`, `expr_roundtrip.dfy`, `expr_image.dfy`, `expr_text.dfy`, `expr_writing.dfy`), how
  far each token reaches (`expr_scanning.dfy`), and what texts mean, operator by operator
  (`expr_precedence.dfy`).
* **Template statements** (`enjoy/`). An outcome-based semantics (`stat_spec.dfy`), the interpreter with
  its jump flags proved to refine it (`stat_exec.dfy`), the laws of jumps, output and scopes
  (`stat_laws.dfy`), and what the statements write and change (`stat_meaning.dfy`). Evaluation of
  expressions is an arbitrary function of the scopes.
* **AI calls** (`ai/`). The event stream of a call and its usage (`stream_events.dfy`), the outcome that
  provider and consumer determine (`stream_script.dfy`), the streaming call that computes it
  (`stream_session.dfy`), what it delivers (`stream_content.dfy`), the non-streaming twin
  (`stream_call.dfy`), the accumulator (`accum_spec.dfy`, `accum_laws.dfy`, `accumulator.dfy`) and the
  bounded session (`memory_session.dfy`). A provider is a script of rounds and frames; the consumer is
  an arbitrary predicate on what it has received.
* **Router** (`aifei/router.go`). Radix trees as values and what a split, a new leaf and a new handler
  keep (`router_shape.dfy`), and the nodes on the heap (`router.dfy`), for static routes.
* **JSON-RPC session** (`mcp/`). The pending table as atomic steps of senders, pumps, timeouts and close
  in every interleaving (`rpc_session.dfy`), and what becomes of calls in it (`rpc_laws.dfy`); ids
  follow section 5 of the JSON-RPC 2.0 Specification.
* **Batch** (`db/batch.go`). Grouping (`batch_groups.dfy`) and execution against a database that may
  fail at any operation (`batch_exec.dfy`).

## Where the code differs from what one might expect

* Resuming is exact only while each budget is used up: a run that ended before its budget did repeats
  its last node when it is evaluated again (`FlowChunks.ResumeIsExactIffCut` gives the exact condition).
  The start node itself is never recorded by a fresh run.
* The step counter is an int32, and so is the budget it is compared with: a budget of 2^31 - 1 is never
  exhausted, one whose int32 part is negative lets no node pass (`FlowRuns.BudgetBoundsRun`). A budget
  bounds every run exactly when it is not negative and its int32 part is not 2^31 - 1
  (`FlowRuns.BoundsIffBinding`, with the endless run of `FlowRuns.WhirlRun`).
* A parallel join whose task or callback interrupts when the last branch arrives keeps all its arrivals
  counted (`FlowJoins.InterruptedJoin`). `FlowJoins.JoinsBalance` says exactly which runs are unbalanced
  by it, `FlowJoins.JoinsBalanceIff` in which worlds none is.
* A loop gateway over an empty collection never reaches what follows it and leaves its iterator on the
  stack (`FlowPrograms.EmptyLoop`).
* A stepper whose end lies less than one step above the smallest int64 runs past its end
  (`FlowStepper.WrapsPastEnd`).
* An unterminated string literal that ends in a backslash makes the expression lexer panic
  (`ExprLexer.PanicsIff` says exactly when). The parser ignores tokens after a complete expression
  (`ExprWriting.TextRoundTrip`). `(a)(x)` parses as a call of the name `a`
  (`ExprRoundTrip.NameInParens`).
* `#switch` evaluates the values of later cases again when no case matches (`StatLaws.SwitchTriesAgain`).
  This is harmless when they are pure (`StatLaws.SwitchTriesOnce`), and in every world exactly when the
  cases after the first have no values (`StatLaws.SwitchTriesOnceIff`).
* After the consumer of a stream rejected an event, an upstream failure that comes before the next look
  at the abort mark still sends the closing STEP_END and ERROR (`StreamScript.RejectionBeforeFailure`);
  otherwise nothing more is sent (`StreamScript.RejectionOutcome`). `StreamScript.RejectionAlwaysEnds`
  says for which providers no consumer ever sees this.
* A successful non-streaming call has the block shape of a stream exactly when no trip it takes emits an
  ERROR event (`StreamCall.Call.Run`); one without an error payload does not make it fail
  (`StreamCall.FlaggedCall`). Its RESPONSE_END carries step 0.
* Trimming keeps tool results with their calls in each AddMessage, but when the results of one call
  arrive one by one, trimming in between can orphan the later ones (`MemorySessions.OrphanedTool`);
  `MemorySessions.AddedAttachedIff` and `MemorySessions.HistoryAttachedIff` say exactly when.
* Field names with commas make rows with different field lists share a batch group
  (`BatchGroups.CommaMerges`). A row without fields shares a group with one that has some only if the
  latter's one field is the empty name (`BatchGroups.ApartIff`); exactly then rows are executed or
  skipped that should not be (`BatchExec.OrderPermutes`).

## Model

| member | source | states |
|---|---|---|
| `FlowGraph.NewGraph` | flow/graph.go:20-94 | Every spec becomes exactly one node with its links by priority, and `incoming` is the number of links of all nodes that name it (none counted for a start); the start is the last start-typed node, else the first node no link leads to; there is no graph exactly when neither exists |
| `FlowGraph.IncomingIs` | flow/graph.go:20-94 | The count of a node is the number of places, a node and a position among its links, at which a link leads to it |
| `FlowGraph.SortLinks` | flow/node.go:220-227 | The in-place insertion sort leaves the array sorted by the specification function |
| `FlowGraph.SortedIs` | flow/node.go:220-227 | Sorting is by descending priority, keeps every link, and keeps the order of links with equal priority |
| `FlowEngine.Exchanger.NodeRun` | flow/engine.go:234-278 | One node entry does to flags, counters, stacks, trace and variables exactly what the specification says, on any graph and for any tasks |
| `FlowEngine.Exchanger.KindRun` | flow/engine.go:261-278 | The switch over node types runs the plan of the node |
| `FlowEngine.Exchanger.StartRun` | flow/engine.go:280-297 | Callbacks, then the links whose condition holds, as specified |
| `FlowEngine.Exchanger.EndRun` | flow/engine.go:299-307 | Callbacks only; nothing follows |
| `FlowEngine.Exchanger.ActivityRun` | flow/engine.go:309-318 | Its task, then the links, unless that ended the branch |
| `FlowEngine.Exchanger.LinksOut` | flow/engine.go:320-331 | The loop over links runs, in order, those whose condition holds, up to the first error |
| `FlowChoices.LinksWalk` | flow/engine.go:320-331 | The links are followed one after the other: each whose condition holds in the state its turn finds is entered, the others change nothing, and a failure ends the walk there |
| `FlowEngine.Exchanger.ExclusiveRun` | flow/engine.go:334-358 | The gateway does what its plan says; which link that is says FlowChoices.ExclusiveTakes |
| `FlowChoices.ExclusiveTakes` | flow/engine.go:334-358 | Once the task of an exclusive gateway has gone on, the flow takes the first link whose condition holds alone, if no condition before it fails to run; it fails exactly when one fails before any holds; when all conditions say no it takes the last link without one, and nothing exactly when there is none |
| `FlowChoices.ChooseIs` | flow/engine.go:339-356 | The loop over the links, with the default it has so far, finds the first link that holds, the error in front of it, or the last link without a condition |
| `FlowEngine.Exchanger.InclusiveRun` | flow/engine.go:361-400 | The gateway does what its plan says; when it waits and what it follows says FlowChoices.InclusiveGateway |
| `FlowChoices.InclusiveGateway` | flow/engine.go:361-400 | A gateway with several links into it waits exactly while fewer branches arrived than the last fork matched; otherwise the match leaves the stack, its task runs, and if that goes on exactly the links that hold are followed, their number is matched anew, and the run fails exactly when a condition fails to run |
| `FlowChoices.MatchingIs` | flow/engine.go:382-400 | The targets matched are those of all links whose condition holds or that have none, each behind the targets of the links before it; none exactly when some condition fails to run |
| `FlowEngine.Exchanger.MatchedOut` | flow/engine.go:382-400 | All conditions are asked before any link is followed, and the number of matches is pushed |
| `FlowEngine.Exchanger.ParallelRun` | flow/engine.go:403-428 | The join waits for every incoming link, then its task runs, its counter restarts and every next node runs |
| `FlowChoices.NextNodesIs` | flow/node.go:168 | A parallel gateway follows the links to nodes of the graph, in order, whatever their conditions |
| `FlowEngine.Exchanger.LoopRun` | flow/engine.go:431-478 | An inflow gateway waits while the top iterator has items, an outflow gateway pushes an iterator and iterates |
| `FlowEngine.Exchanger.Iterations` | flow/engine.go:469-478 | Each item leaves the shared iterator, is bound to the loop variable, and the links run |
| `FlowChoices.DeliversIs` | flow/engine.go:501-527 | A list delivers itself, a stepper start, start + step, ... below its end, a variable the collection it holds; anything else and a step that is not positive is an error |
| `FlowEngine.Exchanger.TaskExec` | flow/engine.go:209-231 | Callback, condition, task and callback, as specified; what they leave behind says FlowChoices.TaskTells |
| `FlowChoices.TaskTells` | flow/engine.go:209-231 | A live node gets to its first callback, to its condition, to its task or to its last callback: a stop or an interrupt ends the branch there, an error the run; the task runs exactly when the condition holds, with the variables of the first callback, and the last callback sees those of the task |
| `FlowChoices.PlainNodes` | flow/engine.go:280-318 | Start and end nodes run callbacks and no task, an end node leads nowhere, the others go on along their links unless their branch ended; while reverting nothing is run |
| `FlowEngine.Exchanger.OnNodeStart` | flow/engine.go:164-180 | The callback runs unless reverting; a stop or an interrupt ends the branch and the interrupt is used up |
| `FlowEngine.Exchanger.OnNodeEnd` | flow/engine.go:183-199 | As OnNodeStart, for the end of a node |
| `FlowEngine.Exchanger.NextStep` | flow/exchanger.go:123-128 | The shared int32 counter against the budget cut to int32; no budget always passes |
| `FlowEngine.TraceLog.RecordNode` | flow/trace.go:60-72 | The node becomes the last record of its graph, the first graph ever recorded becomes the root, and a disabled trace stays as it is |
| `FlowEngine.TraceLog.LastNode` | flow/trace.go:75-98 | The last recorded node, or the start when there is none; an empty graph id stands for the root graph |
| `FlowChoices.TraceKeeps` | flow/trace.go:60-98 | A record is what is found for its graph from then on and changes what is found for no other; an empty id finds that of the graph recorded first; a trace that is off or empty gives the start |
| `FlowEngine.Eval` | flow/engine.go:128-161 | A whole evaluation from a context equals the specification, whatever variables and trace it starts with |
| `FlowStepper.Stepper.Next` | flow/stepper.go:53-61 | Gives the next value of the progression; with wrap-around, what exactly it does on all 64-bit inputs |
| `FlowStepper.Stepper.Drain` | flow/engine.go:469-476 | The loop over a stepper sees exactly the values it holds |
| `FlowStepper.Progression` | flow/stepper.go:42-61 | A new stepper yields exactly start, start + step, ... below end, unless its end lies less than a step above the smallest int64 |
| `FlowStepper.StepValuesAre` | flow/stepper.go:42-61 | The i-th value is start + i * step, and it exists if and only if it is below the end |
| `FlowStepper.WrapsPastEnd` | flow/stepper.go:53-61 | In the remaining case the stepper goes on past its end |
| `FlowRuns.NodeMore` | flow/engine.go:234-278 | A run that ends within a recursion depth is the same with any greater depth |
| `FlowRuns.BudgetBoundsRun` | flow/engine.go:234-278 | From a fresh context a budget whose int32 part k is not 2^31 - 1 ends the evaluation on every graph, cyclic ones included, in every world, and at most k nodes get past the budget check (none when k is negative) |
| `FlowRuns.BoundsIffBinding` | flow/engine.go:234-278 | A budget bounds the runs of every graph in every world if and only if it is not negative and its int32 part is not 2^31 - 1 |
| `FlowRuns.WhirlRun` | flow/engine.go:234-278 | With any other budget a start node linked to itself, in a world that does nothing, is still running at every recursion depth |
| `FlowRuns.NodeBounded` | flow/engine.go:234-278 | Every node entry within the budget ends with no more steps left than before |
| `FlowRuns.StopEndsItems` | flow/engine.go:469-478 | After the stop the callers still on the stack record, run and count nothing, whatever links and items they have left |
| `FlowRuns.BudgetNeverExhausted` | flow/exchanger.go:123-128 | A budget lets every counter pass if and only if it is negative or 2^31 - 1 as int32 |
| `FlowJoins.JoinsBalance` | flow/engine.go:403-428 | In every run, whatever graph, world, budget, resume point and recursion bound: at every node entry, reverting or not, the arrivals at each parallel gateway with n incoming links are n times its firings plus what its counter holds, which is fewer than n, if and only if no node is entered after a join stalled; so always when no join that is entered in the run stalls |
| `FlowJoins.StallsIs` | flow/engine.go:209-231 | The task of a live node ends its branch but not the flow exactly when what onStart, the task if its condition holds, and onEnd do up to the first that ends it is an interrupt without a stop and without an error |
| `FlowJoins.StallUnbalances` | flow/engine.go:403-428 | Whatever node, condition and variables stall: a run that is resumed at a join of that kind enters the node behind it unbalanced |
| `FlowJoins.JoinsBalanceIff` | flow/engine.go:403-428 | In a world the joins balance in all runs of all graphs if and only if no node with any condition and variables stalls |
| `FlowJoins.InterruptedJoin` | flow/engine.go:403-428 | One such run: the task of a complete join interrupts, the join keeps the arrival and the next node is entered unbalanced |
| `FlowJoins.ParallelInv` | flow/engine.go:403-428 | An arrival keeps the counters exact, whether it waits or completes the join, unless the join stalls |
| `FlowTrees.UniquePath` | flow/graph.go:50-78 | On a tree-shaped graph two paths from the start to one node are the same path |
| `FlowTrees.PlanGoesAlong` | flow/engine.go:280-428 | On such a graph a node goes along the same links whatever its task does, and always goes along them while reverting |
| `FlowResume.NodeAlike` | flow/engine.go:234-278 | Two runs that differ only in gateway counters and in how much budget is left cannot be told apart until the smaller budget runs out |
| `FlowResume.NodeLast` | flow/engine.go:234-278 | A walk leaves as the last record a node on a path below the one it entered |
| `FlowResume.NodeRests` | flow/engine.go:246-259 | While reverting, a walk that does not lead to the resume point runs, records and counts nothing |
| `FlowResume.ResumeNode` | flow/engine.go:234-278 | The node where one run is cut by its budget is where the resumed run takes up, and from there it is indistinguishable from the uncut run |
| `FlowChunks.NodeDepth` | flow/engine.go:234-278 | On a tree the recursion is never deeper than the number of nodes |
| `FlowChunks.EvalFinds` | flow/engine.go:141-161 | Resuming an earlier run passes its last recorded node before any other |
| `FlowChunks.BudgetIsPrefix` | flow/engine.go:141-161 | A fresh run with budget k is the first k nodes of the unlimited run and records the next one as last, if and only if the unlimited run passes more than k nodes; otherwise it is the unlimited run |
| `FlowChunks.ResumeIsExact` | flow/engine.go:141-161 | A run cut by its budget k and resumed with k' has the node log, the variables each task saw, the trace and the outcome of one run with k + k', or of the unlimited run |
| `FlowChunks.ResumeIsExactIffCut` | flow/engine.go:141-161 | This holds if and only if k is less than the number of nodes of the unlimited run |
| `FlowChunks.AnyChunking` | flow/engine.go:128-161 | Any chunking of budgets gives the node log and the end of one run, as long as the budgets before the last do not exceed the run |
| `FlowPrograms.RunsProg` | flow/engine.go:234-478 | A properly nested graph of activities, loops over non-empty collections, forks and choices does what the structured program does, whose choices take the link FlowChoices.Picks describes and whose loops take the items their source delivers, then continues at the node after it; loop stack and join counters are as before |
| `FlowPrograms.RunsItems` | flow/engine.go:431-478 | The body runs once per item in order with the variable bound; the inflow gateway lets the flow go on once, after the last item |
| `FlowPrograms.RunsAll` | flow/engine.go:403-428 | The branches of a fork run in order; the task at its join runs once, after every branch |
| `FlowPrograms.NestedRun` | flow/engine.go:128-161 | A whole evaluation of such a graph runs the tasks of its program in order, each with the variables the program gives it, and leaves no loop open and no branch waiting |
| `FlowPrograms.EmptyLoop` | flow/engine.go:469-478 | Over an empty collection nothing after the loop runs and the stack stays one higher |
| `ExprParser.Parser.ParseAssign` | enjoy/expr_parser.go:74-101 | From any lookahead and scanner state the method returns what the grammar gives and leaves exactly the tokens it leaves |
| `ExprPrecedence.AssignBinds` | enjoy/expr_parser.go:74-101 | x = y p z assigns y p z for every binary operator |
| `ExprPrecedence.AssignTernary` | enjoy/expr_parser.go:74-101 | x = y ? a : b assigns the ternary |
| `ExprPrecedence.AssignNests` | enjoy/expr_parser.go:74-101 | Assignments nest to the right |
| `ExprPrecedence.ElementAssign` | enjoy/expr_parser.go:74-101 | x[y] = z assigns the element |
| `ExprParser.Parser.ParseTernary` | enjoy/expr_parser.go:103-135 | As ParseAssign, for the ternary |
| `ExprPrecedence.TernaryBinds` | enjoy/expr_parser.go:103-135 | x p y ? a : b asks x p y for every binary operator |
| `ExprPrecedence.TernaryNests` | enjoy/expr_parser.go:103-135 | Ternaries nest to the right |
| `ExprParser.Parser.ParseBinary` | enjoy/expr_parser.go:137-295 | As ParseAssign, for the seven operator levels, the optional right operand of the null-coalescing operator included |
| `ExprPrecedence.TwoOperators` | enjoy/expr_parser.go:137-295 | For all names x, y, z and operators p, q: the text x p y q z reads as x p (y q z) if q stands in a tighter group than p, of: logical or; logical and; == !=; < <= > >=; + -; * / %; ?? (loosest first), and as (x p y) q z otherwise |
| `ExprPrecedence.ParensFirst` | enjoy/expr_parser.go:415-489 | (x p y) q z reads with p first, whatever the operators |
| `ExprPrecedence.ParensLast` | enjoy/expr_parser.go:415-489 | x p (y q z) reads with q first, whatever the operators |
| `ExprParser.Parser.BinaryRest` | enjoy/expr_parser.go:142-156 | The operator loop builds the left-associative tree of the grammar |
| `ExprParser.Parser.ParseUnary` | enjoy/expr_parser.go:297-341 | As ParseAssign, for !, - and prefix ++ and -- |
| `ExprPrecedence.NotBinds` | enjoy/expr_parser.go:297-341 | !x p y reads as (!x) p y for every binary operator |
| `ExprPrecedence.NegBinds` | enjoy/expr_parser.go:297-341 | -x p y reads as (-x) p y for every binary operator |
| `ExprPrecedence.NotField` | enjoy/expr_parser.go:297-413 | !x.f reads as !(x.f) |
| `ExprPrecedence.NegField` | enjoy/expr_parser.go:297-413 | -x.f reads as -(x.f) |
| `ExprPrecedence.PrefixSteps` | enjoy/expr_parser.go:297-341 | ++x and --x read as x++ and x-- do |
| `ExprParser.Parser.ParsePostfix` | enjoy/expr_parser.go:343-413 | As ParseAssign, for the postfix loop of members, calls, indices, ++ and -- |
| `ExprPrecedence.FieldReads` | enjoy/expr_parser.go:343-413 | x.f reads as the member f of x |
| `ExprPrecedence.SafeFieldReads` | enjoy/expr_parser.go:343-413 | x?.f reads as the null-safe member f of x |
| `ExprPrecedence.MethodReads` | enjoy/expr_parser.go:343-413 | x.f(y) reads as the method f of x with the argument y |
| `ExprPrecedence.CallReads` | enjoy/expr_parser.go:343-413 | f(x, y) reads as the call of f with x and y, in this order |
| `ExprPrecedence.IndexReads` | enjoy/expr_parser.go:343-413 | x[y] reads as the element y of x |
| `ExprPrecedence.StaticReads` | enjoy/expr_parser.go:343-413 | c::m(x) reads as the static call of m of c with x |
| `ExprPrecedence.StepReads` | enjoy/expr_parser.go:343-413 | x++ reads as the step up of x |
| `ExprPrecedence.StepBackReads` | enjoy/expr_parser.go:343-413 | x-- reads as the step down of x |
| `ExprParser.Parser.ParseAtom` | enjoy/expr_parser.go:415-489 | As ParseAssign, for atoms, a missing one included |
| `ExprPrecedence.LiteralsRead` | enjoy/expr_parser.go:415-489 | Digits read as an integer, with one dot between them as a float, a quoted text without escapes as that string |
| `ExprPrecedence.WordsRead` | enjoy/expr_parser.go:415-489 | true, TRUE, false, FALSE, null and nil read as the values they name |
| `ExprPrecedence.NamesRead` | enjoy/expr_parser.go:415-489 | Every other word of letters, digits, underscores and dollars that starts with no digit reads as that name |
| `ExprParser.Parser.ParseArrayOrRange` | enjoy/expr_parser.go:497-540 | As ParseAssign, for arrays and ranges |
| `ExprPrecedence.ArrayReads` | enjoy/expr_parser.go:497-540 | [x, y] reads as the array of x and y |
| `ExprPrecedence.RangeReads` | enjoy/expr_parser.go:497-540 | [x..y] reads as the range from x to y |
| `ExprParser.Parser.ParseMap` | enjoy/expr_parser.go:542-575 | As ParseAssign, for maps |
| `ExprPrecedence.MapReads` | enjoy/expr_parser.go:542-575 | A key in quotes, a colon and a name in braces read as the map of that one pair |
| `ExprParser.Parser.ParseCallArgs` | enjoy/expr_parser.go:577-599 | As ParseAssign, for argument lists |
| `ExprGrammar.ParseAssign` | enjoy/expr_parser.go:74-599 | On every token stream the parser ends; it never gives tokens back, and a tree that is not nil costs at least one token |
| `ExprGrammar.ParseArgs` | enjoy/expr_parser.go:577-599 | The argument loop ends on every token stream |
| `ExprGrammar.ParsePairs` | enjoy/expr_parser.go:542-575 | The map loop ends on every token stream |
| `ExprRoundTrip.AssignRoundTrip` | enjoy/expr_parser.go:74-599 | For every tree the grammar can produce, parsing its minimal-parentheses print gives the same tree and leaves exactly what followed |
| `ExprRoundTrip.BinaryRoundTrip` | enjoy/expr_parser.go:137-295 | At every operator level a printed operand is parsed back before the operator loop goes on |
| `ExprRoundTrip.UnaryRoundTrip` | enjoy/expr_parser.go:297-341 | As AssignRoundTrip, at the unary level |
| `ExprRoundTrip.PostfixRoundTrip` | enjoy/expr_parser.go:343-413 | A printed operand is parsed back before the postfix loop goes on |
| `ExprRoundTrip.ArgsRoundTrip` | enjoy/expr_parser.go:577-599 | A printed argument list is parsed back element by element |
| `ExprRoundTrip.PairsRoundTrip` | enjoy/expr_parser.go:542-575 | A printed map is parsed back pair by pair |
| `ExprImage.AssignImage` | enjoy/expr_parser.go:74-599 | Every tree the parser returns on scanned tokens is one the round trip covers: objects, indices and operands are there where the printer needs them |
| `ExprImage.ReparseRoundTrip` | enjoy/expr_parser.go:74-599 | Whatever the parser accepts, its tree prints to tokens that parse to the same tree |
| `ExprLexer.Lexer.Scan` | enjoy/expr_lexer.go:66-197 | Each call returns the head of the remaining token stream and leaves its tail; past the end it repeats EOF |
| `ExprLexer.Lexer.SkipWs` | enjoy/expr_lexer.go:199-203 | The position moves to the next character that is no white space |
| `ExprLexer.Lexer.ScanId` | enjoy/expr_lexer.go:205-220 | A maximal identifier, or the keyword it spells |
| `ExprLexer.Lexer.ScanStr` | enjoy/expr_lexer.go:222-237 | A string literal with its escapes, an unterminated one included, or the panic of one that ends in a backslash |
| `ExprLexer.Lexer.ScanNumber` | enjoy/expr_lexer.go:239-256 | The numeral the specification reads; how far it reaches says ExprScanning.NumeralTells |
| `ExprScanning.NameTells` | enjoy/expr_lexer.go:205-220 | A name or word is a run of letters, digits, underscores and dollars that ends only where the next character is none; it is a name unless it is one of six words |
| `ExprScanning.NumeralTells` | enjoy/expr_lexer.go:239-256 | A numeral is a run of digits and single dots that ends only where neither follows, in front of two dots for one; it is a float exactly when it holds a dot |
| `ExprScanning.LiteralTells` | enjoy/expr_lexer.go:222-237 | A literal reaches to the first quote of its kind behind an even number of backslashes and is what stands between, as written |
| `ExprScanning.OpenLiteralTells` | enjoy/expr_lexer.go:222-237 | A literal that is never closed reaches to the end of the text, unless it panics |
| `ExprScanning.OperatorTells` | enjoy/expr_lexer.go:66-197 | Two characters that make an operator are always one token; a character that is none ends the tokens |
| `ExprText.LexerRoundTrip` | enjoy/expr_lexer.go:66-256 | The single-space case of SpacedRoundTrip |
| `ExprText.SpacedRoundTrip` | enjoy/expr_lexer.go:66-256 | Every list of canonical tokens with any run of spaces, tabs, carriage returns and newlines in front of each and behind the last, at least one character between two of them, scans back to the same list and then EOF |
| `ExprWriting.TextRoundTrip` | enjoy/expr_parser.go:16-39 | The print of every tree whose names are identifiers and no keywords, whose numbers are numerals and whose strings need no escape, written with any white space between its tokens, parses back to that tree, whatever tokens that do not continue it come after it; where static calls are refused it is an error exactly when a static member stands in the tree or after it |
| `ExprWriting.PrintWritten` | enjoy/expr_parser.go:74-599 | The print of such a tree consists of tokens that scan back, and calls a static member exactly when the tree does |
| `ExprLexer.PanicsIff` | enjoy/expr_lexer.go:222-237 | Scanning panics exactly at a string literal of which every further quote is escaped and whose text ends in a backslash that is not |
| `ExprRoundTrip.NameInParens` | enjoy/expr_parser.go:343-413 | A name in parentheses parses as the name itself, whatever comes after it but a double colon: (a)(x) is a call of a |
| `ExprText.TextReparse` | enjoy/expr_parser.go:16-39 | Whatever text is accepted, its tree is one the grammar can produce and round-trips |
| `ExprParser.ParseExpr` | enjoy/expr_parser.go:16-39 | Trimming, the refusal of static calls, scanning and parsing together give what the composed specification gives |
| `ExprParser.ScanForStatic` | enjoy/expr_parser.go:43-54 | The scan for static calls refuses exactly the texts with such a token, or that panic |
| `StatExec.Interpreter.Exec` | enjoy/stat_parser.go:15-358 | From clear flags every statement leaves the output, scopes and functions its outcome semantics gives, and the flags say exactly how it ended: at most one is set |
| `StatMeaning.ChainRuns` | enjoy/stat_parser.go:71-85 | A chain of #if, any number of #elseif and #else whose conditions change nothing does what the body of the first arm with a truthy condition does, and what #else does when there is none |
| `StatMeaning.TwoTexts` | enjoy/stat_parser.go:71-85 | #if(c)a#else b#end writes exactly a when c is truthy and exactly b when it is not, and changes nothing else |
| `StatMeaning.SetIs` | enjoy/stat_parser.go:148-167 | #set and its kin change one variable of one scope, the innermost, the outermost, or the first that has it and else the outermost, and write nothing |
| `StatMeaning.ReturnEnds` | enjoy/stat_parser.go:260-285 | A value is written as it is shown, nil not at all; #return hands over its value and nothing after it is written; a conditional one ends the list exactly when its value is truthy |
| `StatExec.Interpreter.ExecList` | enjoy/stat_parser.go:15-22 | The flag check before each statement makes the list stop at the first jump |
| `StatExec.Interpreter.ExecFor` | enjoy/stat_parser.go:104-137 | Break and continue of the body are taken up, return passes, #else runs only for an empty collection |
| `StatMeaning.ForTells` | enjoy/stat_parser.go:104-137 | For every body that writes what it finds in its scope: #for writes that for every item in order, each with the variable and the loop state of its turn (index, count, first, last, outer loop), nothing after a #continue and only the first turn with a #break; for an empty collection it does what #else does; the scopes outside are as before |
| `StatMeaning.GetIs` | enjoy/scope.go:29-46 | A variable is that of the first scope that has it, and nil if none has |
| `StatExec.Interpreter.ExecCall` | enjoy/stat_parser.go:196-234 | Arguments are evaluated in the caller, bound in a scope of their own, and the flags are clear after the body |
| `StatMeaning.CallTells` | enjoy/stat_parser.go:196-234 | A call writes what its body finds in a scope that holds the i-th argument under the i-th parameter and nothing else |
| `StatMeaning.CallsKnow` | enjoy/stat_parser.go:196-234 | A definition changes the function of its name alone; a call of an unknown function panics unless it is null-safe, one with the wrong number of arguments always |
| `StatMeaning.ParamsAre` | enjoy/stat_parser.go:213-234 | In the scope of a call the i-th parameter is the i-th argument, of equal names the last, and no other name is there |
| `StatMeaning.EvalAllWalks` | enjoy/stat_parser.go:213-234 | Arguments are evaluated from left to right, each in the memory the one before left |
| `StatExec.Interpreter.ExecInclude` | enjoy/stat_parser.go:295-304 | The sub-template runs in its own scope and lets its jumps through |
| `StatMeaning.IncludeTells` | enjoy/stat_parser.go:295-304 | An included template writes what its body finds in a scope of the assigned parameters alone, which are evaluated from left to right; the scopes of the caller are as before |
| `StatExec.Interpreter.ExecSwitch` | enjoy/stat_parser.go:314-324 | Each case and all after it are tried, then the next case again, then the default |
| `StatExec.Interpreter.ExecIfMatch` | enjoy/stat_parser.go:336-348 | The first matching value of this case or a later one runs its body |
| `StatMeaning.SwitchIs` | enjoy/stat_parser.go:314-348 | When evaluating values changes nothing, #switch does what the body of the first case with an equal value does, and what the default does when there is none |
| `StatLaws.NothingAfterJump` | enjoy/stat_parser.go:15-22 | Of two lists in a row the second runs if and only if the first ended normally: nothing is written after a jump |
| `StatLaws.ForAbsorbs` | enjoy/stat_parser.go:104-137 | A #for ends with break or continue only when its collection is empty and its #else did |
| `StatLaws.CallAbsorbs` | enjoy/stat_parser.go:213-234 | A template-function call never ends with a jump |
| `StatLaws.RunKeeps` | enjoy/stat_parser.go:15-358 | However a statement ends, output was only appended to and every scope it opened is closed |
| `StatLaws.RunMore` | enjoy/stat_parser.go:213-234 | A run that does not reach the recursion bound does not depend on it |
| `StatLaws.SwitchTriesOnce` | enjoy/stat_parser.go:314-348 | When evaluating the values of the cases after the first changes nothing, trying cases again changes nothing |
| `StatLaws.FirstPass` | enjoy/stat_parser.go:336-348 | A first pass that finds a case decides as trying each case once does, whatever the values do |
| `StatLaws.SwitchTriesOnceIff` | enjoy/stat_parser.go:314-348 | Trying cases again changes nothing in every world, state and recursion bound if and only if no case after the first has a value to evaluate |
| `StatLaws.SwitchTriesAgain` | enjoy/stat_parser.go:314-348 | For every statement, where evaluations are counted and nothing matches, the code makes as many evaluations more as the cases from the second, third, ... on have values together, and ends alike; so it differs as soon as a case after the first has one |
| `StreamEvents.Usage.Add` | ai/usage.go:34-49 | All ten counters grow by those of the other usage; a missing one changes nothing |
| `StreamEvents.FoldAdd` | ai/usage.go:34-49 | Folding Add over the usages of all steps gives their sum, counter by counter |
| `StreamEvents.SumCounts` | ai/usage.go:34-49 | Each of the ten counters of the sum is the sum of that counter alone over all usages there are |
| `StreamEvents.CompleteStream` | ai/stream.go:126-148 | A complete log is RESPONSE_START, blocks numbered from 0, and one terminal event that is the last |
| `StreamEvents.StreamComplete` | ai/stream.go:126-148 | Every such sequence is complete |
| `StreamSession.Session.AccumulateUsage` | ai/stream.go:54-85 | The total becomes a new object that counts one step more; no usage an event carries changes |
| `StreamSession.Stream.OnFrame` | ai/stream.go:235-267 | A frame does what its part of the course says: aborted, skipped, its deltas and usage sent, or an upstream error; the step stays open |
| `StreamSession.Stream.ReadBody` | ai/stream.go:235-284 | A body is an upstream failure exactly when a frame fails, the transport breaks, no model frame or no completion signal came; else its events are sent up to the first abort |
| `StreamSession.Stream.EmitStepEnd` | ai/stream.go:414-428 | The step is closed with its number and its usage is counted once |
| `StreamSession.Stream.RunTools` | ai/stream.go:334-411 | Tool calls play out as the script says: a failure, a step left to be closed, or a closed step and the next round |
| `StreamContent.Delivers` | ai/stream.go:126-420 | For every provider and consumer, told without the course: RESPONSE_START, then for each round its start, frame by frame its deltas and then its usage, one event for every tool call, tool result and synthetic event, and its end; nothing of a round that cannot be built, of a frame that reports an error only the deltas in front of it and nothing behind it, no end behind a body that is not whole or a failing tool; of all this the consumer receives everything up to the first event it rejects |
| `StreamContent.HealthyDelivers` | ai/stream.go:126-420 | A provider without failures, told without the course: block n holds its start, for each frame of round n that is not empty its deltas and then its usage, then one event for every tool call, tool result and synthetic event, then its end with the last usage a frame of the round brought, and nothing else; a further block follows exactly when the tools ask for it |
| `StreamContent.UsageIsLast` | ai/stream.go:235-267 | The usage of a step is that of its last frame that brought one |
| `StreamSession.Stream.DoStream` | ai/stream.go:199-321 | A round and all rounds its tools call for end with exactly the error and the events the script and the consumer determine, between blocks or in a state that can be balanced |
| `StreamSession.Stream.FinishSuccess` | ai/stream.go:486-513 | One RESPONSE_END with the usage of all steps |
| `StreamSession.Stream.FinishFailure` | ai/stream.go:518-551 | An open step is closed, its usage counted, then one ERROR |
| `StreamScript.HealthyOutcome` | ai/stream.go:126-150 | When the provider fails nowhere, the call ends well if and only if every event before the terminal one is accepted, and returns the consumer's error if and only if one is not; the rejected event is then the last |
| `StreamScript.AcceptingOutcome` | ai/stream.go:126-150 | A consumer that accepts everything sees success exactly when the provider fails nowhere |
| `StreamScript.SmoothIsHealthy` | ai/stream.go:170-290 | The course of a call has a failure or an error event exactly when a reached round cannot be built, reports an error, is not whole, or has a failing tool |
| `StreamScript.RejectionOutcome` | ai/stream.go:126-150 | For every provider and consumer: of the events before the closing ones only the last can be rejected, and then the consumer's error is returned if and only if no failure of the script comes between it and the next look at the abort mark |
| `StreamScript.RejectionAlwaysEnds` | ai/stream.go:126-150 | A rejection ends the call with the consumer's error for every consumer if and only if no round that is reached ends with a usage in front of a failing body, or with results of tools of which one fails |
| `StreamScript.RejectionBeforeFailure` | ai/stream.go:235-284 | A truncated one-frame body whose usage event is rejected: the upstream failure is reported all the same |
| `StreamSession.Stream.Run` | ai/stream.go:126-150 | For every provider and consumer: error and events are exactly those of script and consumer, followed by one RESPONSE_END on success, a STEP_END of an open step and one ERROR on an upstream failure, and nothing when the consumer's own error is returned; success and failure deliver a complete stream whose terminal event carries the sum of all STEP_END usages, and no usage that was sent changes later. Before the closing events the consumer receives exactly what StreamContent.Delivers tells, from a provider that fails nowhere whole blocks |
| `StreamCall.Call.DoCall` | ai/model.go:287-387 | A round trip and those its tools call for succeed exactly when none of them breaks off, and record exactly the events the trips tell, block by block with their content and their usage at the end |
| `StreamCall.Call.Run` | ai/model.go:238-257 | A call succeeds if and only if every trip it takes is built, usable, without an error and without failing tools; it then records exactly RESPONSE_START, the events of its trips with content and usage, and a RESPONSE_END with step 0; these have the block shape of a stream if and only if no trip it takes emits an error event |
| `StreamCall.FlaggedCall` | ai/model.go:287-308 | A trip that emits an error event without an error: the call succeeds and its trace has not the shape |
| `AccumSpec.SlotsHoldText` | ai/accumulator.go:152-170 | After any events the text slots have unique keys in order of first appearance, and each holds all deltas of its key |
| `AccumSpec.MessageTextIs` | ai/accumulator.go:252-258 | The message text is, key by key in order of first appearance, all deltas of that key, whatever media came in between |
| `AccumSpec.AbsorbLosesNothing` | ai/accumulator.go:172-222 | A tool event moves no entry and shortens no arguments; a key changes only when an index arrives for a call known by its id |
| `AccumSpec.ArgumentsAre` | ai/accumulator.go:172-222 | After any events the keys are unique and each call's arguments are the fragments routed to it, in order, with an END body only when there were none |
| `AccumLaws.CallsHaveFields` | ai/accumulator.go:206-211 | Index, id and name of every call are each the last one that is not empty among those the events routed to it brought, and empty if none brought one |
| `AccumLaws.RouteIs` | ai/accumulator.go:172-205 | An event goes to the call known by its identity; if there is none and it brings index and id, to the call known by that id; else it begins a new call |
| `AccumLaws.TextKeyIff` | ai/accumulator.go:80-89 | Two text deltas go to one slot exactly when they name the same item, or none and the same index, or neither |
| `AccumLaws.MediaAre` | ai/accumulator.go:116-120 | The media of the message are those of the events, in order, whatever text comes in between |
| `Accumulators.Accumulator.TextSlot` | ai/accumulator.go:152-170 | The cached key and the full search give the same slot, the first and only one with the key, or a new one at the end |
| `Accumulators.Accumulator.Migrate` | ai/accumulator.go:184-194 | The builder known by its id is known by its index from then on, at the same place in the order, and the order still lists every key once |
| `Accumulators.Accumulator.BuilderFor` | ai/accumulator.go:172-205 | The builder is the one the routing rule gives; a new one stands at the end |
| `Accumulators.Accumulator.Merge` | ai/accumulator.go:106-150 | One event changes entries and builders exactly as specified, and the order still lists the keys of the table |
| `Accumulators.Accumulator.Text` | ai/accumulator.go:252-258 | The concatenation of all text slots |
| `Accumulators.Accumulator.BuildToolCalls` | ai/accumulator.go:225-247 | The calls in order of first appearance |
| `Accumulators.Aggregate` | ai/accumulator.go:106-258 | A message aggregated from any stream of events has the text of all deltas, key by key, and calls with the arguments routed to them, each with the last index, id and name its events brought |
| `MemorySessions.TrimKeepsAttached` | ai/session.go:147-166 | If every tool message directly follows a tool message or a call, this still holds after trimming |
| `MemorySessions.TrimKeepsSystems` | ai/session.go:147-166 | All system messages survive, in order |
| `MemorySessions.TrimLeavesSuffix` | ai/session.go:147-166 | The surviving other messages are a suffix, and at least the asked number is gone or all of them |
| `MemorySessions.TrimCuts` | ai/session.go:147-166 | Trimming drops all but the system messages in front of one place and nothing behind it: the first place where at least the asked number is gone and no result of an earlier call stands |
| `MemorySessions.AddedCuts` | ai/session.go:133-143 | Below the limit an addition drops nothing; above it exactly what stands in front of the first place where as many messages are gone as came and no result stands, system messages excepted |
| `MemorySessions.AddedKeeps` | ai/session.go:133-143 | From a bounded history adding keeps the bound (within the limit, or only system messages), the groups, the system messages and a suffix of the others |
| `MemorySessions.MemorySession.AddMessage` | ai/session.go:133-143 | The history becomes the specified one |
| `MemorySessions.MemorySession.RemoveNonSystem` | ai/session.go:147-166 | The in-place compaction of the array computes the trimmed history |
| `MemorySessions.MemorySession.LatestMessages` | ai/session.go:65-93 | A suffix that is everything when the window does not cut, and else starts at the nearest user message at or before the window, or the first after it, whenever there is a user message |
| `MemorySessions.AttachedIs` | ai/session.go:147-166 | Groups are whole exactly when at every position with a tool message the message before is a tool message or a call |
| `MemorySessions.AddedAttachedIff` | ai/session.go:133-143 | For every history with whole groups and every addition whose later groups are whole: groups are whole afterwards if and only if the addition does not start with tool messages, or the history ends in a call or its results, or trimming drops everything up to the last of those tool messages |
| `MemorySessions.HistoryAttachedIff` | ai/model.go:440 | After any additions, results added one by one included, groups were whole at every moment if and only if each addition that starts with tool messages met that condition when it was added |
| `MemorySessions.HistoryKeeps` | ai/session.go:133-143 | After any additions to nothing the history is bounded, keeps all system messages and a suffix of the others, and keeps groups when each addition is whole |
| `MemorySessions.Remember` | ai/session.go:133-143 | An empty session to which any batches are added holds exactly the specified history, with all that it keeps |
| `MemorySessions.OrphanedTool` | ai/session.go:133-143 | A concrete history in which a tool result that arrives later loses its call |
| `RouterShape.SplitSound` | aifei/router.go:131-146 | Splitting a node keeps the trees sound (places, distinct first bytes, coverage, handlers) and changes no route |
| `RouterShape.ExtendSound` | aifei/router.go:201-211 | A new leaf keeps the trees sound and registers exactly its own path |
| `RouterShape.AssignSound` | aifei/router.go:214-215 | New handlers at a node keep the trees sound and change exactly its route |
| `RouterShape.NoChild` | aifei/router.go:260-288 | When no child starts with the next byte, nothing is registered below |
| `RouterShape.ChildOnTheWay` | aifei/router.go:266-268 | The child with the right first byte leads to the target, if anything does |
| `Router.CommonPrefix` | aifei/router.go:302-312 | The longest common prefix |
| `Router.Router.LongestMatch` | aifei/router.go:151-167 | The child sharing the longest prefix, or none exactly when none shares the first byte |
| `Router.Router.SplitAt` | aifei/router.go:131-146 | The split in place, as specified |
| `Router.Router.Add` | aifei/router.go:101-217 | The walk ends, keeps the trees sound, and registers exactly the given path |
| `Router.Router.Handle` | aifei/router.go:64-79 | The route of the method and the normalised path becomes the given handlers, all others stay |
| `Router.Router.Find` | aifei/router.go:219-289 | What is registered at the target, given that a node at the target could only stand at or below this one |
| `Router.Router.Lookup` | aifei/router.go:91-97 | The handlers registered for the method and path, and nothing otherwise |
| `Router.LookupAfter` | aifei/router.go:64-97 | After any sequence of registrations of static paths a lookup returns the handlers of the last registration that serves that method and path, its path taken as it stands or with a slash in front if it has none; nothing when there is none |
| `RpcSession.StepKeeps` | mcp/session.go:91-192 | Every atomic step of senders, pumps, timeouts and close keeps the invariant |
| `RpcSession.IdsNeverRepeat` | mcp/session.go:91-121 | In every interleaving two calls have different ids |
| `RpcSession.PostNeverBlocks` | mcp/session.go:179-192 | In every interleaving the channel a pump took out of the table is empty when it posts |
| `RpcSession.AnsweredByOwnId` | mcp/server_session.go:94-180 | A call is answered only by a response with its own id, and no channel is posted into twice |
| `RpcSession.TableEmptiesOut` | mcp/session.go:91-121 | Once all calls have returned the table is empty |
| `RpcSession.ResponseArrives` | mcp/session.go:160-192 | As long as a waiting call is in the table, a response with its id can be taken, posted and received, and ends that very call |
| `RpcSession.CloseReleases` | mcp/session.go:136-157 | After a close every waiting call can return by itself and leaves no entry |
| `RpcLaws.ReleasedIff` | mcp/session.go:136-177 | In every interleaving a waiting call can leave by itself if and only if some step so far closed the session or ended its transport; it then returns that the session is closed and leaves no entry |
| `RpcLaws.ResponseReaches` | mcp/session.go:91-192 | Unless the session is being dismissed, a waiting call can always be answered: its response is in its channel, or in the hands of a pump that can post it, or can be read, posted and received |
| `RpcLaws.ResultIs` | mcp/session.go:91-121 | In every interleaving a call came back unavailable, with a transport error, timed out, closed or answered exactly when the step of its own that does so was taken, and an answer was read off the transport and has its id |
| `RpcLaws.IdIsNth` | mcp/session.go:91-121 | The n-th call to take an id has the id n, and keeps it |
| `BatchGroups.GroupRows` | db/batch.go:308-331 | One group per key in order of first appearance, with exactly the rows of that key in their order, under the table and the fields of its first row |
| `BatchGroups.Partition` | db/batch.go:308-331 | Together the groups hold every row exactly as often as it was given |
| `BatchGroups.KeyIff` | db/batch.go:317 | Without NUL in table names and commas in field names two keys are the same if and only if table and field list are, or one list is empty and the other holds the empty name alone |
| `BatchGroups.GroupIsUniform` | db/batch.go:308-331 | Then all rows of a group have one table and one field list, but for that one pair of lists |
| `BatchGroups.ApartIff` | db/batch.go:317 | Without NUL in table names, whatever the field names: rows without fields share no group with rows that have some if and only if no row without fields has the table of one whose only field is the empty name |
| `BatchGroups.CommaMerges` | db/batch.go:317 | Rows whose field lists differ only in that a name holds a comma at which the other is split stand in one group, wherever the name stands and whatever the other rows are |
| `BatchExec.Batch.CommitChunk` | db/batch.go:183-204 | It fails exactly when one of its operations does; what was executed is durable afterwards unless it is the commit that failed |
| `BatchExec.ChunksAreFull` | db/batch.go:357-387 | Chunk ends stand after every multiple of the chunk size, and nowhere else; the end of the group is none |
| `BatchExec.Batch.ExecRow` | db/batch.go:357-387 | One more row is executed and the count the database reported for it recorded, or nothing; a chunk end commits, and is durable unless its commit is what failed |
| `BatchExec.Batch.ExecInsertGroups` | db/batch.go:335-396 | It ends with an error exactly when an operation it made fails, and that one is the last; on success all rows with fields are executed in group order, recorded, and durable when the batch owns the transaction; on an error a prefix is executed, and of it exactly the rows up to the last chunk end are durable, not counting the end whose commit failed; the recorded counts are exactly what the database reported for the executed rows, in order, and the affected total is their sum |
| `BatchExec.OrderPermutes` | db/batch.go:308-353 | For all rows: the execution order is a rearrangement of the rows with fields if and only if no row without fields shares a group with one that has some; no row stands in it more often than given |
| `BatchExec.Insert` | db/batch.go:265-275 | For all rows: it fails exactly when an operation it made fails; no row is executed more often than given; on success the executed rows are all rows with fields, each as often as given, if and only if no row without fields shares a group with one that has some; on an error the durable rows are a prefix of those executed; the counts are what the database reported, in order, and their sum is the affected total |

## Left out

Flow engine:
- Subgraph tasks (`#graphId`), their step refund and the exchanger copies they use; one graph per evaluation.
- A trace whose record names a node that is no longer in the graph: the source dereferences a nil start node.
- FlowChunks.ResumeIsExact: conditions never fail to run, because an interrupted branch is walked again while reverting and asks conditions the first run never asked; tasks and callbacks may stop, interrupt and fail. Budgets are below 2^31 - 1.
- FlowChunks.AnyChunking: covers trees without loop gateways, as a replay of a loop or of a join passes the record several times.
- FlowPrograms.RunsProg: covers executions in which no task or callback stops, interrupts or fails, activities with one link, and no inclusive gateways, whose counter is not reset after a join.
- Iterators are entries of a table the loop stack refers to, not objects; the recursion has a depth bound, which FlowRuns.NodeMore shows to be immaterial.
- Interceptor chains, drivers, containers, YAML and JSON loading, PlantUML output, node attachments and metadata.
- The text forms of `$in` and the parsing of stepper strings.

Template expressions and statements:
- Numerals stay text, so overflow of literals is not modelled; error messages are not told apart.
- Characters stand for bytes; trimming knows ASCII white space only.
- The seven operator methods of one shape are one method with the level as parameter, and the wrapper node of null-safe members is a flag.
- Evaluation of expressions, reflection, built-in and custom directives, the parsing of templates into statements, shared objects and functions.
- Scopes are a list of maps, innermost first, instead of linked objects; `#elseif` chains are nested `#if`s.
- StatExec.Interpreter.Exec: recursion of template functions has a bound, which StatLaws.RunMore shows to be immaterial; after a panic the flags are not described.

AI calls:
- HTTP, SSE framing, dialects, deadlines, interceptors, custom event filters (the default filter is modelled), snapshots and messages on events, usage labels and raw usage sources.
- StreamSession.Stream.Run: 64-bit overflow of token counters is not modelled; a dialect that commits the same usage object again, changed, counts as one that commits none; a provider is a finite script, after which building the next request fails.
- The terminal carrier of the accumulator (complete messages and END payloads), thinking, citations and search results; parsing of arguments.
- RemoveLatestMessage of the session, which does not keep groups intact.
- MemorySessions.HistoryAttachedIff: additions have whole groups after their first tool messages, and only assistant messages carry calls.

Router:
- Router.Router.Handle: parameter and catch-all routes, whose matching does not backtrack from literal siblings, are outside; a registration without handlers is modelled and takes the path out of service.
- Route groups, which only prefix paths and wrap handlers.

JSON-RPC session:
- Wrap-around of the 64-bit id counter, the transport, request and notification dispatch, listening streams of the server session beyond the check that one exists.

Batch:
- Generated keys, updates and raw SQL batches (same loop with other statements), hooks, value conversion, statement handles.
- Calls into a transaction's owner: a batch that chunks takes over the transaction of its context, and what the owner does with it afterwards is not modelled.
