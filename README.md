# MethodReturnCheck: a Dafny model of FindBugs' return-value-ignored detector

FindBugs' `MethodReturnCheck` detector looks for calls whose return value is thrown away
right after the call, when the callee's must-check-return-value annotation says the result
should be used. This project models that detector in three parts:

- **The prescreen.** It scans a method only when the method's opcode set holds a `POP` or
  `POP2` and at least one of the four invoke opcodes.
- **The two-state machine `sawOpcode`.** It runs in `SCAN` or `SAW_INVOKE`. It records every
  invoke, and reports when a pop comes straight after one.
- **The priority arithmetic.** It uses the annotation's priority, the size of the
  surrounding try block, and a suffix test on the callee's descriptor.

Opcode numbers come from chapter 7 of the Java Virtual Machine Specification: `POP` = 87,
`POP2` = 88, `INVOKEVIRTUAL`..`INVOKEINTERFACE` = 182..185.

Layout:

- `wrappers.dfy`: `Option`, which stands for Java references that may be null.
- `opcodes.dfy`: the opcodes and the decoded `Instruction` record.
- `strings.dfy`: `String.replace` and `String.endsWith`.
- `detect.dfy`: the specification functions and the class.
  - The specification functions are `Prescreen`, `IsPop`, `IsInvoke`, `Priority`,
    `SelfReturning`, `ReportFor`, `Step` (one `sawOpcode`), `Scan`, `VisitCodeSpec` and
    `VisitMethods`.
  - The class `MethodReturnCheck` has the Java fields `state`, `callPC`, `className`,
    `methodName`, `signature` and `callSeen`. Its methods `SawOpcode`, `VisitCode` and
    `VisitClassContext` are proved against those functions.
  - `BugReporter` collects the findings in a sequence.
- `detect_properties.dfy`: the lemmas, and scenarios worked through on concrete bytecode.

Collaborators whose code is not part of this model are given as input values:

- **The annotation database.** `CheckReturnAnnotationDatabase` holds two functions:
  `resolvedAnnotation` (None stands for null) and `annotationIsDirect`.
- **The opcode set.** `MethodInfo.bytecodeSet` is what `ClassContext.getBytecodeSet`
  returns for the method. It may be None.
- **The try-block size.** `MethodInfo.sizeOfSurroundingTryBlock` is the inherited
  `getSizeOfSurroundingTryBlock(pc)` query.

Behaviours of the code, modelled as written:

- **Where the finding points.** A finding carries the PC of the call (`callPC`), not the
  PC of the pop.
- **The static flag.** It is computed from the pop's opcode, so it is always false
  (`StepReportContents`).
- **`state` is never reset between methods.** It starts as `SCAN` only because that is the
  field default. Say a scanned method ends right after an invoke. If the next scanned method
  begins with a pop, it reports the earlier call (`StateCarriesAcrossMethods`). The
  prescreen is exact only from `SCAN`. A method that fails it is skipped, so a report
  carried over from the earlier call is dropped (`PrescreenDropsCarriedReport`). The
  skipped method also leaves the carried fields as they were, where a scan would have
  changed them (`PrescreenKeepsSkippedState`). Both carry effects need a scanned method
  whose last instruction is an invoke. javac never emits one, and the type-checking verifier
  (class files of version 50 and up) rejects it. A class file of an older version can end
  in unreachable code, though, and the scan walks that code too
  (`UnreachableInvokeLeavesSawInvoke`).
- **The "returns its own class" test is a suffix test on the descriptor.** A call on class
  `Bar` that returns `FooBar` also passes it (`SuffixTestAcceptsLongerClassName`). The code
  tests only a suffix of the descriptor, and the model follows it.
- **The try-block size comes from the query above.** The size is whatever the inherited
  query returns; the model does not compute it.

## Model

| member | source | states |
|---|---|---|
| Detect.IsInvoke | src/java/edu/umd/cs/findbugs/detect/MethodReturnCheck.java:51-57 | membership in the invoke set is exactly the opcode range 182..185 |
| Detect.IsPop | src/java/edu/umd/cs/findbugs/detect/MethodReturnCheck.java:139-141 | holds exactly for opcodes 87 and 88, and no pop is an invoke |
| Detect.Prescreen | src/java/edu/umd/cs/findbugs/detect/MethodReturnCheck.java:95-104 | true iff the opcode set is non-null, holds some pop opcode and holds some invoke opcode |
| Detect.IntersectsInvokes | src/java/edu/umd/cs/findbugs/detect/MethodReturnCheck.java:100 | `intersects(INVOKE_OPCODE_SET)` holds exactly when the set contains some invoke opcode |
| Detect.Priority | src/java/edu/umd/cs/findbugs/detect/MethodReturnCheck.java:115-119 | result lies in [base, base+3]; it is base+3 iff catch size <= 1 and the annotation is inherited on a non-self-returning call; it is base iff catch size > 2 and the annotation is direct or the call self-returning |
| Detect.SelfReturning | src/java/edu/umd/cs/findbugs/detect/MethodReturnCheck.java:118-119 | the test holds iff the descriptor ends in `;` preceded by the callee's class name with dots read as slashes; see also ReturnsOwnClassIsSelfReturning |
| Detect.ReportFor | src/java/edu/umd/cs/findbugs/detect/MethodReturnCheck.java:109-125 | a finding exists iff the resolved annotation is non-null and not the ignore annotation; it sits at callPC, names the recorded call, has priority in [p, p+3] and, for a pop, is never static; see also StepReportsIff and StepReportContents |
| Detect.Step | src/java/edu/umd/cs/findbugs/detect/MethodReturnCheck.java:106-137 | one transition keeps the state invariant: state is SCAN or SAW_INVOKE, and SAW_INVOKE always has a recorded call |
| Detect.Scan | src/java/edu/umd/cs/findbugs/detect/MethodReturnCheck.java:92 | scanning keeps the state invariant and yields at most one finding per instruction |
| Detect.VisitCodeSpec | src/java/edu/umd/cs/findbugs/detect/MethodReturnCheck.java:85-93 | visiting a method keeps the state invariant and yields at most one finding per instruction; see PrescreenSound for what skipping costs |
| Detect.VisitMethods | src/java/edu/umd/cs/findbugs/detect/MethodReturnCheck.java:74-79 | visiting the methods of a class one after another keeps the state invariant |
| Strings.Replace | src/java/edu/umd/cs/findbugs/detect/MethodReturnCheck.java:119 | `replace(".", "/")` keeps the length, maps each dot to a slash, keeps every other character, and leaves no dot |
| Strings.EndsWith | src/java/edu/umd/cs/findbugs/detect/MethodReturnCheck.java:119 | `endsWith` holds iff the suffix fits and matches the last characters position by position |
| Strings.EndsWithAppended | src/java/edu/umd/cs/findbugs/detect/MethodReturnCheck.java:119 | a string ends with whatever was appended to it |
| Detect.BugReporter.ReportBug | src/java/edu/umd/cs/findbugs/detect/MethodReturnCheck.java:125 | reporting appends exactly the one finding to the reported sequence |
| Detect.MethodReturnCheck.constructor | src/java/edu/umd/cs/findbugs/detect/MethodReturnCheck.java:61-72 | keeps the reporter; state starts as SCAN by default and no call, class, method or database is set |
| Detect.MethodReturnCheck.VisitClassContext | src/java/edu/umd/cs/findbugs/detect/MethodReturnCheck.java:74-79 | the new fields and the appended findings are those of VisitMethods from the old fields; the class context is cleared afterwards, the database stays set |
| Detect.MethodReturnCheck.VisitNextMethod | src/java/edu/umd/cs/findbugs/detect/MethodReturnCheck.java:77-93 | visiting one more method extends the fields and findings of VisitMethods by that method's visitCode |
| Detect.MethodReturnCheck.Visit | src/java/edu/umd/cs/findbugs/detect/MethodReturnCheck.java:81-83 | the visited method becomes the one given |
| Detect.MethodReturnCheck.VisitCode | src/java/edu/umd/cs/findbugs/detect/MethodReturnCheck.java:85-93 | a method that fails the prescreen changes nothing; otherwise the fields and findings are those of one step per instruction, in order |
| Detect.MethodReturnCheck.SawOpcode | src/java/edu/umd/cs/findbugs/detect/MethodReturnCheck.java:106-137 | the new fields and the appended finding (zero or one) are exactly those of Step on the old fields |
| DetectProperties.StepState | src/java/edu/umd/cs/findbugs/detect/MethodReturnCheck.java:127-136 | after any step the state is SAW_INVOKE iff the opcode was an invoke, and SCAN otherwise |
| DetectProperties.StepRecordsCall | src/java/edu/umd/cs/findbugs/detect/MethodReturnCheck.java:128-134 | an invoke overwrites callPC, className, methodName, signature and callSeen with the instruction's PC and operands; any other opcode leaves all five unchanged |
| DetectProperties.StepReportsIff | src/java/edu/umd/cs/findbugs/detect/MethodReturnCheck.java:108-110 | a step reports iff the prior state is SAW_INVOKE, the opcode is a pop, and the resolved annotation is non-null and not the ignore annotation |
| DetectProperties.StepReportContents | src/java/edu/umd/cs/findbugs/detect/MethodReturnCheck.java:113-124 | a finding has type RV_RETURN_VALUE_IGNORED, names the visited method and the recorded call, sits at callPC, is never static, and has priority Priority(...) within [p, p+3] |
| DetectProperties.PriorityAntitone | src/java/edu/umd/cs/findbugs/detect/MethodReturnCheck.java:116-117 | a larger surrounding try block never gives a higher priority |
| DetectProperties.ReturnsOwnClassIsSelfReturning | src/java/edu/umd/cs/findbugs/detect/MethodReturnCheck.java:118-119 | a descriptor whose return type is `L<callee class with slashes>;` passes the self-returning test, so it gets no inherited-annotation bump |
| DetectProperties.SuffixTestAcceptsLongerClassName | src/java/edu/umd/cs/findbugs/detect/MethodReturnCheck.java:119 | class `Bar` with descriptor `()LFooBar;` also passes the suffix test |
| DetectProperties.ScanFinalState | src/java/edu/umd/cs/findbugs/detect/MethodReturnCheck.java:106-137 | after a scan the state is SAW_INVOKE iff the last instruction was an invoke (or, for empty code, iff it was so before) |
| DetectProperties.ScanRecordsLastCall | src/java/edu/umd/cs/findbugs/detect/MethodReturnCheck.java:128-134 | a scan ending in SAW_INVOKE has recorded the last instruction's PC and operands as the call |
| DetectProperties.ScanReportCount | src/java/edu/umd/cs/findbugs/detect/MethodReturnCheck.java:106-137 | the number of findings is exactly the number of adjacent (invoke, pop) pairs with a reportable annotation, plus one if the scan starts in SAW_INVOKE on a pop of a reportable earlier call |
| DetectProperties.ReportableAtMostPairs | src/java/edu/umd/cs/findbugs/detect/MethodReturnCheck.java:108-110 | reportable pairs are a subset of the adjacent (invoke, pop) pairs |
| DetectProperties.ScanReportBound | src/java/edu/umd/cs/findbugs/detect/MethodReturnCheck.java:106-137 | from SCAN, findings are at most the adjacent (invoke, pop) pairs |
| DetectProperties.NoPairsWithoutPopOrInvoke | src/java/edu/umd/cs/findbugs/detect/MethodReturnCheck.java:98-101 | code without a pop, or without an invoke, has no adjacent (invoke, pop) pair |
| DetectProperties.PrescreenSound | src/java/edu/umd/cs/findbugs/detect/MethodReturnCheck.java:85-104 | when the opcode set covers the code, a method started in SCAN yields the same findings with or without the prescreen |
| DetectProperties.PrescreenDropsCarriedReport | src/java/edu/umd/cs/findbugs/detect/MethodReturnCheck.java:88-89 | from SAW_INVOKE on a reportable earlier call, the code `[pop]` fails the prescreen and gives no finding, though a scan of it gives one |
| DetectProperties.PrescreenKeepsSkippedState | src/java/edu/umd/cs/findbugs/detect/MethodReturnCheck.java:88-89 | `[invokevirtual]` fails the prescreen and leaves the state SCAN, where a scan would leave SAW_INVOKE |
| DetectProperties.UnreachableInvokeLeavesSawInvoke | src/java/edu/umd/cs/findbugs/detect/MethodReturnCheck.java:128-134 | the scan walks an invoke after a `return` too: `[invokevirtual, pop, return, invokevirtual]` ends in SAW_INVOKE with callPC at the last invoke |
| DetectProperties.ScanReportsAtCalls | src/java/edu/umd/cs/findbugs/detect/MethodReturnCheck.java:120-124 | from SCAN, every finding belongs to an invoke immediately followed by a pop, names that invoke's class, name and descriptor, and carries the invoke's PC |
| DetectProperties.UnguardedDirectCall | src/java/edu/umd/cs/findbugs/detect/MethodReturnCheck.java:106-126 | `invokevirtual Foo.bar()I; pop` with a direct priority-1 annotation and no try block gives exactly one finding, priority 1, at the call's PC |
| DetectProperties.TightTryBlock | src/java/edu/umd/cs/findbugs/detect/MethodReturnCheck.java:113-116 | the same code with a try block of size 1 gives one finding of priority 3 |
| DetectProperties.InheritedNonSelfReturning | src/java/edu/umd/cs/findbugs/detect/MethodReturnCheck.java:115-119 | an inherited priority-2 annotation on a call not returning its own class, outside any try block, gives priority 3 |
| DetectProperties.InterveningInstructionCancels | src/java/edu/umd/cs/findbugs/detect/MethodReturnCheck.java:135-136 | `invokestatic; dup; pop` gives no finding |
| DetectProperties.StateCarriesAcrossMethods | src/java/edu/umd/cs/findbugs/detect/MethodReturnCheck.java:66-79 | a class whose first method ends with an invoke and whose second starts with a pop gets one finding, for the first method's call at its PC |

## Left out

- Annotation resolution (`CheckReturnAnnotationDatabase`): the hierarchy walk and `annotationIsDirect` are not part of this model. They are the two functions of the input value. The second argument (`false`) of `getResolvedAnnotation` is not modelled.
- `ClassContext.getBytecodeSet` is not part of this model. The opcode set is an input, and `PrescreenSound` assumes it covers every opcode of the code.
- `getSizeOfSurroundingTryBlock`, inherited from `BytecodeScanningDetector`, is not part of this model. It is an input function of the PC; exception-table geometry is not modelled.
- `XFactory.createXMethod` interning is modelled as building an `XMethod` value. Identity of canonical objects is not modelled.
- The visitor traversal of `BytecodeScanningDetector` is modelled only as a simple in-order loop. `VisitCode` runs one `SawOpcode` per instruction, and `VisitClassContext` runs `Visit` then `VisitCode` per method that has code. BCEL class-file parsing is not modelled.
- `AnalysisContext.currentAnalysisContext()` global state: the database is a parameter of `VisitClassContext`.
- `BugInstance` formatting: the finding is a plain record. `addSourceLine(this, callPC)` is modelled as recording the PC; the line-number lookup is not modelled.
- `BugReporter` output: `reportBug` appends to a sequence.
- The `DEBUG` and `CHECK_ALL` system-property reads and the `System.out` printing are I/O. `CHECK_ALL` is read but never used by the code shown.
- Priority, SawOpcode: Java `int` wrap-around in the priority arithmetic (`+= 2`, `+= 1`, `++`) is not modelled; the model adds unbounded integers. It cannot arise, because the base is one of the small priority constants of `CheckReturnValueAnnotation` (not part of this model), far below Integer.MAX_VALUE - 3.
- Java's null `String` fields before the first invoke are modelled as empty strings. They are only read after an invoke has set them.
- `Methods.java` is a visitor that only forwards to `XFactory`. `NoWarning.java` is an annotation type with no behaviour. Neither is modelled.
- Concurrency in the wider analysis driver is not modelled.
