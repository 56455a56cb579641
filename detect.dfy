/**
 * The return-value-ignored detector MethodReturnCheck: a prescreen over the
 * set of opcodes of a method, a two-state machine fed one instruction at a
 * time in program-counter order, and the priority given to each finding.
 *
 * The pure functions (Prescreen, Step, Scan, VisitCodeSpec, VisitMethods)
 * are the specification; the class MethodReturnCheck keeps the detector's
 * fields as the source does and its methods are proved against them.
 */
module Detect {
  import opened Wrappers
  import opened Opcodes
  import opened Strings

  /** The two values of the detector's `state` field. */
  const SCAN := 0
  const SAW_INVOKE := 1

  const RV_RETURN_VALUE_IGNORED := "RV_RETURN_VALUE_IGNORED"

  /** The four method-invocation opcodes (INVOKE_OPCODE_SET). */
  const InvokeOpcodes: set<Opcode> := {INVOKEINTERFACE, INVOKESPECIAL, INVOKESTATIC, INVOKEVIRTUAL}

  /** `INVOKE_OPCODE_SET.get(seen)`. */
  function IsInvoke(seen: Opcode): (r: bool)
    ensures r <==> INVOKEVIRTUAL <= seen <= INVOKEINTERFACE
  {
    seen in InvokeOpcodes
  }

  /** `isPop(seen)`: the instruction discards one or two stack slots. */
  function IsPop(seen: Opcode): (r: bool)
    ensures r <==> seen in {87, 88}
    ensures r ==> !IsInvoke(seen)
  {
    seen == POP || seen == POP2
  }

  /**
   * `prescreen()`: only a method whose opcode set holds a pop and an invoke is
   * scanned. A null opcode set means the method is not scanned.
   */
  function Prescreen(bytecodeSet: Option<set<Opcode>>): (r: bool)
    ensures r <==> bytecodeSet.Some?
                   && (exists op :: op in bytecodeSet.value && IsPop(op))
                   && (exists op :: op in bytecodeSet.value && IsInvoke(op))
  {
    if bytecodeSet.None? then false
    else
      var bs := bytecodeSet.value;
      PopWitness(bs);
      IntersectsInvokes(bs);
      if !(POP in bs || POP2 in bs) then false
      else if bs * InvokeOpcodes == {} then false
      else true
  }

  lemma PopWitness(bs: set<Opcode>)
    ensures (POP in bs || POP2 in bs) <==> exists op :: op in bs && IsPop(op)
  {
    if POP in bs {
      assert IsPop(POP);
    } else if POP2 in bs {
      assert IsPop(POP2);
    }
  }

  /** `bs.intersects(INVOKE_OPCODE_SET)` holds exactly when `bs` has an invoke opcode. */
  lemma IntersectsInvokes(bs: set<Opcode>)
    ensures bs * InvokeOpcodes != {} <==> exists op :: op in bs && IsInvoke(op)
  {
    if bs * InvokeOpcodes != {} {
      var w :| w in bs * InvokeOpcodes;
      assert w in bs && IsInvoke(w);
    }
    if exists op :: op in bs && IsInvoke(op) {
      var w :| w in bs && IsInvoke(w);
      assert w in bs * InvokeOpcodes;
    }
  }

  /** The must-check-return-value annotation resolved for a call target. */
  datatype CheckReturnValueAnnotation =
    | CheckReturnValue(priority: int)
    | CheckReturnValueIgnore

  /** A canonical method reference (what XFactory.createXMethod returns). */
  datatype XMethod = XMethod(className: string, name: string, signature: string, isStatic: bool)

  /**
   * The annotation database, whose resolution is not part of this model:
   * `getResolvedAnnotation` (None stands for null) and `annotationIsDirect`.
   */
  datatype CheckReturnAnnotationDatabase = CheckReturnAnnotationDatabase(
    resolvedAnnotation: XMethod -> Option<CheckReturnValueAnnotation>,
    annotationIsDirect: XMethod -> bool)

  /**
   * A method being visited: its name and descriptor, its instructions in
   * program-counter order, what ClassContext.getBytecodeSet returns for it
   * (None for null) and the inherited getSizeOfSurroundingTryBlock query.
   */
  datatype MethodInfo = MethodInfo(
    name: string,
    signature: string,
    code: seq<Instruction>,
    bytecodeSet: Option<set<Opcode>>,
    sizeOfSurroundingTryBlock: int -> int)

  /** A class being visited: its dotted name and the methods that have code. */
  datatype ClassContext = ClassContext(className: string, methods: seq<MethodInfo>)

  /** The finding handed to the bug reporter, as a plain record. */
  datatype BugInstance = BugInstance(
    bugType: string,
    priority: int,
    className: string,       // addClassAndMethod: the visited class ...
    methodName: string,      // ... and method
    methodSignature: string,
    calledClass: string,     // addMethod: the discarded call
    calledName: string,
    calledSignature: string,
    calledIsStatic: bool,
    sourceLinePC: int)       // addSourceLine: the PC whose line is reported

  /** The detector fields that `sawOpcode` reads and writes. */
  datatype ScanState = ScanState(
    state: int,
    callPC: int,
    className: string,
    methodName: string,
    signature: string,
    callSeen: Option<XMethod>)
  {
    /** `state` is SCAN or SAW_INVOKE, and SAW_INVOKE has a recorded call. */
    predicate Valid() {
      (state == SCAN || state == SAW_INVOKE) && (state == SAW_INVOKE ==> callSeen.Some?)
    }
  }

  /** The field values a freshly constructed detector starts with. */
  const InitialScanState := ScanState(SCAN, 0, "", "", "", None)

  /** What `sawOpcode` reads besides its own fields. */
  datatype ScanContext = ScanContext(
    db: CheckReturnAnnotationDatabase,
    inClass: string,
    visited: MethodInfo)

  datatype StepResult = StepResult(fields: ScanState, report: Option<BugInstance>)
  datatype ScanResult = ScanResult(fields: ScanState, reports: seq<BugInstance>)

  /** The test that the call returns its own class, a suffix test on the descriptor. */
  function SelfReturning(callee: XMethod): (r: bool)
    ensures var sig, cls := callee.signature, callee.className;
            r <==> |cls| + 1 <= |sig| && sig[|sig| - 1] == ';'
                   && forall i :: 0 <= i < |cls| ==>
                        sig[|sig| - 1 - |cls| + i] == (if cls[i] == '.' then '/' else cls[i])
  {
    EndsWith(callee.signature, Replace(callee.className, '.', '/') + ";")
  }

  /**
   * The priority of a finding: the annotation's priority, raised by 2 for a
   * try block of size at most 1, by 1 for size 2, and by 1 more for an
   * inherited annotation on a call that does not return its own class.
   */
  function Priority(base: int, catchSize: int, direct: bool, selfReturning: bool): (r: int)
    ensures base <= r <= base + 3
    ensures r == base + 3 <==> catchSize <= 1 && !direct && !selfReturning
    ensures r == base <==> catchSize > 2 && (direct || selfReturning)
  {
    var p := if catchSize <= 1 then base + 2 else if catchSize <= 2 then base + 1 else base;
    if !direct && !selfReturning then p + 1 else p
  }

  /** The finding for a pop at `pop` of the call recorded in `f`, if the annotation asks for one. */
  function ReportFor(f: ScanState, pop: Instruction, ctx: ScanContext): (r: Option<BugInstance>)
    requires f.callSeen.Some?
    ensures var a := ctx.db.resolvedAnnotation(f.callSeen.value);
            r.Some? <==> a.Some? && a != Some(CheckReturnValueIgnore)
    ensures r.Some? ==> var a := ctx.db.resolvedAnnotation(f.callSeen.value).value;
                        a.priority <= r.value.priority <= a.priority + 3
                        && r.value.sourceLinePC == f.callPC
                        && r.value.calledName == f.methodName && r.value.calledClass == f.className
    ensures r.Some? && IsPop(pop.opcode) ==> !r.value.calledIsStatic
  {
    var callSeen := f.callSeen.value;
    var annotation := ctx.db.resolvedAnnotation(callSeen);
    if annotation.Some? && !annotation.value.CheckReturnValueIgnore? then
      var catchSize := ctx.visited.sizeOfSurroundingTryBlock(pop.pc);
      var priority := Priority(annotation.value.priority, catchSize,
                               ctx.db.annotationIsDirect(callSeen), SelfReturning(callSeen));
      Some(BugInstance(RV_RETURN_VALUE_IGNORED, priority, ctx.inClass, ctx.visited.name,
                       ctx.visited.signature, f.className, f.methodName, f.signature,
                       pop.opcode == INVOKESTATIC, f.callPC))
    else None
  }

  /** One call of `sawOpcode`, as a transition function. */
  function Step(f: ScanState, ins: Instruction, ctx: ScanContext): (r: StepResult)
    requires f.Valid()
    ensures r.fields.Valid()
  {
    var seen := ins.opcode;
    if f.state == SAW_INVOKE && IsPop(seen) then
      StepResult(f.(state := SCAN), ReportFor(f, ins, ctx))
    else if IsInvoke(seen) then
      var callSeen := XMethod(ins.classOperand, ins.nameOperand, ins.sigOperand, seen == INVOKESTATIC);
      StepResult(ScanState(SAW_INVOKE, ins.pc, ins.classOperand, ins.nameOperand, ins.sigOperand,
                           Some(callSeen)), None)
    else
      StepResult(f.(state := SCAN), None)
  }

  /** `sawOpcode` over `code` in order, collecting the findings. */
  function Scan(f: ScanState, code: seq<Instruction>, ctx: ScanContext): (r: ScanResult)
    requires f.Valid()
    ensures r.fields.Valid()
    ensures |r.reports| <= |code|
    decreases |code|
  {
    if code == [] then ScanResult(f, [])
    else
      var prior := Scan(f, code[..|code| - 1], ctx);
      var s := Step(prior.fields, code[|code| - 1], ctx);
      ScanResult(s.fields, prior.reports + OptionToSeq(s.report))
  }

  /** `visitCode`: scan the visited method if it passes the prescreen. */
  function VisitCodeSpec(f: ScanState, ctx: ScanContext): (r: ScanResult)
    requires f.Valid()
    ensures r.fields.Valid()
    ensures |r.reports| <= |ctx.visited.code|
  {
    if Prescreen(ctx.visited.bytecodeSet) then Scan(f, ctx.visited.code, ctx)
    else ScanResult(f, [])
  }

  /** `visitCode` for each method in turn; the fields carry over from one to the next. */
  function VisitMethods(f: ScanState, inClass: string, db: CheckReturnAnnotationDatabase,
                        methods: seq<MethodInfo>): (r: ScanResult)
    requires f.Valid()
    ensures r.fields.Valid()
    decreases |methods|
  {
    if methods == [] then ScanResult(f, [])
    else
      var prior := VisitMethods(f, inClass, db, methods[..|methods| - 1]);
      var v := VisitCodeSpec(prior.fields, ScanContext(db, inClass, methods[|methods| - 1]));
      ScanResult(v.fields, prior.reports + v.reports)
  }

  /** VisitMethods over one more method extends the previous result by that method's scan. */
  lemma VisitMethodsSnoc(f: ScanState, inClass: string, db: CheckReturnAnnotationDatabase,
                         methods: seq<MethodInfo>, i: nat)
    requires f.Valid() && i < |methods|
    ensures var prior := VisitMethods(f, inClass, db, methods[..i]);
            var v := VisitCodeSpec(prior.fields, ScanContext(db, inClass, methods[i]));
            VisitMethods(f, inClass, db, methods[..i + 1]) == ScanResult(v.fields, prior.reports + v.reports)
  {
    assert methods[..i + 1][..i] == methods[..i];
  }

  /** The sink findings are reported to. */
  class BugReporter {
    var reported: seq<BugInstance>

    constructor ()
      ensures reported == []
    {
      reported := [];
    }

    method ReportBug(warning: BugInstance)
      modifies this
      ensures reported == old(reported) + [warning]
    {
      reported := reported + [warning];
    }
  }

  class MethodReturnCheck {
    const bugReporter: BugReporter
    var classContext: Option<ClassContext>
    var checkReturnAnnotationDatabase: Option<CheckReturnAnnotationDatabase>
    var visitedMethod: Option<MethodInfo>
    var callSeen: Option<XMethod>
    var state: int
    var callPC: int
    var className: string
    var methodName: string
    var signature: string

    /** The fields `sawOpcode` works on, as a value. */
    function ScanFields(): ScanState
      reads this
    {
      ScanState(state, callPC, className, methodName, signature, callSeen)
    }

    ghost predicate Valid()
      reads this
    {
      ScanFields().Valid()
    }

    /** The detector is inside visitClassContext and a method has been visited. */
    predicate Ready()
      reads this
    {
      classContext.Some? && checkReturnAnnotationDatabase.Some? && visitedMethod.Some?
    }

    function Context(): ScanContext
      reads this
      requires Ready()
    {
      ScanContext(checkReturnAnnotationDatabase.value, classContext.value.className, visitedMethod.value)
    }

    /** The fields start at their Java defaults: state is SCAN, references are unset. */
    constructor (bugReporter: BugReporter)
      ensures this.bugReporter == bugReporter
      ensures ScanFields() == InitialScanState && Valid()
      ensures classContext.None? && checkReturnAnnotationDatabase.None? && visitedMethod.None?
    {
      this.bugReporter := bugReporter;
      classContext := None;
      checkReturnAnnotationDatabase := None;
      visitedMethod := None;
      callSeen := None;
      state := SCAN;
      callPC := 0;
      className, methodName, signature := "", "", "";
    }

    /** `visitClassContext`: visit every method of the class, then forget the class. */
    method VisitClassContext(cc: ClassContext, db: CheckReturnAnnotationDatabase)
      requires Valid()
      modifies this`classContext, this`checkReturnAnnotationDatabase, this`visitedMethod,
               this`state, this`callPC, this`className, this`methodName, this`signature,
               this`callSeen, bugReporter
      ensures Valid() && classContext.None?
      ensures checkReturnAnnotationDatabase == Some(db)
      ensures var r := VisitMethods(old(ScanFields()), cc.className, db, cc.methods);
              ScanFields() == r.fields && bugReporter.reported == old(bugReporter.reported) + r.reports
    {
      classContext := Some(cc);
      checkReturnAnnotationDatabase := Some(db);
      ghost var f0 := old(ScanFields());
      ghost var r0 := old(bugReporter.reported);
      var methods := cc.methods;
      var i := 0;
      while i < |methods|
        invariant 0 <= i <= |methods|
        invariant Valid()
        invariant classContext == Some(cc) && checkReturnAnnotationDatabase == Some(db)
        invariant ScanFields() == VisitMethods(f0, cc.className, db, methods[..i]).fields
        invariant bugReporter.reported == r0 + VisitMethods(f0, cc.className, db, methods[..i]).reports
      {
        VisitNextMethod(methods, i, f0, r0);
        i := i + 1;
      }
      assert methods[..i] == methods;
      classContext := None;
    }

    /**
     * One method of `visitClassContext`'s traversal, `visit(Method)` then
     * `visitCode`, which extends VisitMethods by that method.
     */
    method VisitNextMethod(methods: seq<MethodInfo>, i: nat, ghost f0: ScanState, ghost r0: seq<BugInstance>)
      requires Valid() && classContext.Some? && checkReturnAnnotationDatabase.Some? && f0.Valid()
      requires i < |methods|
      requires var prior := VisitMethods(f0, classContext.value.className, checkReturnAnnotationDatabase.value, methods[..i]);
               ScanFields() == prior.fields && bugReporter.reported == r0 + prior.reports
      modifies this`visitedMethod, this`state, this`callPC, this`className, this`methodName,
               this`signature, this`callSeen, bugReporter
      ensures Valid()
      ensures var next := VisitMethods(f0, classContext.value.className, checkReturnAnnotationDatabase.value, methods[..i + 1]);
              ScanFields() == next.fields && bugReporter.reported == r0 + next.reports
    {
      ghost var prior := VisitMethods(f0, classContext.value.className, checkReturnAnnotationDatabase.value, methods[..i]);
      VisitMethodsSnoc(f0, classContext.value.className, checkReturnAnnotationDatabase.value, methods, i);
      Visit(methods[i]);
      VisitCode();
      ghost var v := VisitCodeSpec(prior.fields, Context());
      assert (r0 + prior.reports) + v.reports == r0 + (prior.reports + v.reports);
    }

    /** `visit(Method)`: remember the method about to be scanned. */
    method Visit(m: MethodInfo)
      modifies this`visitedMethod
      ensures visitedMethod == Some(m)
    {
      visitedMethod := Some(m);
    }

    /** `visitCode`: prescreen, then one `sawOpcode` per instruction in program-counter order. */
    method VisitCode()
      requires Valid() && Ready()
      modifies this`state, this`callPC, this`className, this`methodName, this`signature,
               this`callSeen, bugReporter
      ensures Valid()
      ensures var r := VisitCodeSpec(old(ScanFields()), Context());
              ScanFields() == r.fields && bugReporter.reported == old(bugReporter.reported) + r.reports
    {
      if !Prescreen(visitedMethod.value.bytecodeSet) {
        return;
      }
      var code := visitedMethod.value.code;
      var i := 0;
      while i < |code|
        invariant 0 <= i <= |code|
        invariant Valid()
        invariant var r := Scan(old(ScanFields()), code[..i], Context());
                  ScanFields() == r.fields && bugReporter.reported == old(bugReporter.reported) + r.reports
      {
        assert code[..i + 1][..i] == code[..i];
        SawOpcode(code[i]);
        i := i + 1;
      }
      assert code[..i] == code;
    }

    /** `sawOpcode(seen)` for the instruction `ins` the visitor is at. */
    method SawOpcode(ins: Instruction)
      requires Valid() && Ready()
      modifies this`state, this`callPC, this`className, this`methodName, this`signature,
               this`callSeen, bugReporter
      ensures Valid()
      ensures var r := Step(old(ScanFields()), ins, Context());
              ScanFields() == r.fields && bugReporter.reported == old(bugReporter.reported) + OptionToSeq(r.report)
    {
      var seen := ins.opcode;
      if state == SAW_INVOKE && IsPop(seen) {
        var db := checkReturnAnnotationDatabase.value;
        var annotation := db.resolvedAnnotation(callSeen.value);
        if annotation.Some? && annotation.value != CheckReturnValueIgnore {
          var popPC := ins.pc;
          var catchSize := visitedMethod.value.sizeOfSurroundingTryBlock(popPC);
          var priority := annotation.value.priority;
          if catchSize <= 1 {
            priority := priority + 2;
          } else if catchSize <= 2 {
            priority := priority + 1;
          }
          if !db.annotationIsDirect(callSeen.value) && !SelfReturning(callSeen.value) {
            priority := priority + 1;
          }
          var warning := BugInstance(RV_RETURN_VALUE_IGNORED, priority,
                                     classContext.value.className, visitedMethod.value.name,
                                     visitedMethod.value.signature,
                                     className, methodName, signature, seen == INVOKESTATIC, callPC);
          bugReporter.ReportBug(warning);
        }
        state := SCAN;
      } else if seen in InvokeOpcodes {
        callPC := ins.pc;
        className := ins.classOperand;
        methodName := ins.nameOperand;
        signature := ins.sigOperand;
        callSeen := Some(XMethod(className, methodName, signature, seen == INVOKESTATIC));
        state := SAW_INVOKE;
      } else {
        state := SCAN;
      }
    }
  }
}
