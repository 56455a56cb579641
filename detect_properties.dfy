/**
 * Properties of the return-value-ignored detector: what one step does to the
 * state and the recorded call, when it reports and with what priority, how
 * many findings a scan can produce, and why the prescreen loses none.
 */
module DetectProperties {
  import opened Wrappers
  import opened Opcodes
  import opened Strings
  import opened Detect

  // ---------------------------------------------------------------------
  // One step

  /** After any step the machine is in SAW_INVOKE exactly when the opcode was an invoke. */
  lemma StepState(f: ScanState, ins: Instruction, ctx: ScanContext)
    requires f.Valid()
    ensures Step(f, ins, ctx).fields.state == SAW_INVOKE <==> IsInvoke(ins.opcode)
    ensures !IsInvoke(ins.opcode) ==> Step(f, ins, ctx).fields.state == SCAN
  {
  }

  /** An invoke records its PC and operands; any other opcode keeps the recorded call. */
  lemma StepRecordsCall(f: ScanState, ins: Instruction, ctx: ScanContext)
    requires f.Valid()
    ensures var g := Step(f, ins, ctx).fields;
            if IsInvoke(ins.opcode) then
              g.callPC == ins.pc && g.className == ins.classOperand
              && g.methodName == ins.nameOperand && g.signature == ins.sigOperand
              && g.callSeen == Some(XMethod(ins.classOperand, ins.nameOperand, ins.sigOperand,
                                            ins.opcode == INVOKESTATIC))
            else
              g.callPC == f.callPC && g.className == f.className
              && g.methodName == f.methodName && g.signature == f.signature
              && g.callSeen == f.callSeen
  {
  }

  /**
   * A step reports exactly when a pop follows a recorded invoke whose resolved
   * annotation is present and is not the "ignore" annotation.
   */
  lemma StepReportsIff(f: ScanState, ins: Instruction, ctx: ScanContext)
    requires f.Valid()
    ensures Step(f, ins, ctx).report.Some? <==>
              f.state == SAW_INVOKE && IsPop(ins.opcode)
              && var a := ctx.db.resolvedAnnotation(f.callSeen.value);
                 a.Some? && a != Some(CheckReturnValueIgnore)
  {
  }

  /**
   * A finding names the recorded call and the line of the call's PC (not the
   * pop's), says the call is not static (the flag is computed from the pop),
   * and its priority is the annotation's priority raised by 0 to 3.
   */
  lemma StepReportContents(f: ScanState, ins: Instruction, ctx: ScanContext)
    requires f.Valid()
    requires Step(f, ins, ctx).report.Some?
    ensures var b := Step(f, ins, ctx).report.value;
            var a := ctx.db.resolvedAnnotation(f.callSeen.value);
            && b.bugType == RV_RETURN_VALUE_IGNORED
            && b.className == ctx.inClass && b.methodName == ctx.visited.name
            && b.methodSignature == ctx.visited.signature
            && b.calledClass == f.className && b.calledName == f.methodName
            && b.calledSignature == f.signature
            && b.sourceLinePC == f.callPC
            && !b.calledIsStatic
            && a.Some? && a.value.CheckReturnValue?
            && a.value.priority <= b.priority <= a.value.priority + 3
            && b.priority == Priority(a.value.priority, ctx.visited.sizeOfSurroundingTryBlock(ins.pc),
                                      ctx.db.annotationIsDirect(f.callSeen.value),
                                      SelfReturning(f.callSeen.value))
  {
  }

  // ---------------------------------------------------------------------
  // Priority

  /** A larger surrounding try block never raises the priority. */
  lemma PriorityAntitone(base: int, c1: int, c2: int, direct: bool, selfReturning: bool)
    requires c1 <= c2
    ensures Priority(base, c2, direct, selfReturning) <= Priority(base, c1, direct, selfReturning)
  {
  }

  /** A descriptor whose return type is the callee's own class counts as self-returning. */
  lemma ReturnsOwnClassIsSelfReturning(callee: XMethod, parameters: string)
    requires callee.signature == parameters + "L" + Replace(callee.className, '.', '/') + ";"
    ensures SelfReturning(callee)
  {
    EndsWithAppended(parameters + "L", Replace(callee.className, '.', '/') + ";");
    assert parameters + "L" + (Replace(callee.className, '.', '/') + ";") == callee.signature;
  }

  /**
   * The self-returning test looks only at the end of the descriptor, so a
   * call on class `Bar` returning `FooBar` also passes it.
   */
  lemma SuffixTestAcceptsLongerClassName()
    ensures SelfReturning(XMethod("Bar", "make", "()LFooBar;", true))
  {
    EndsWithAppended("()LFoo", "Bar;");
    assert "()LFoo" + "Bar;" == "()LFooBar;";
  }

  // ---------------------------------------------------------------------
  // A whole scan

  /** The number of adjacent (invoke, pop) instruction pairs in `code`. */
  function InvokePopPairs(code: seq<Instruction>): nat
    decreases |code|
  {
    if |code| < 2 then 0
    else InvokePopPairs(code[..|code| - 1])
         + (if IsInvoke(code[|code| - 2].opcode) && IsPop(code[|code| - 1].opcode) then 1 else 0)
  }

  /** Whether the annotation asks about discarding the result of `callee`. */
  predicate Reportable(db: CheckReturnAnnotationDatabase, callee: XMethod) {
    var a := db.resolvedAnnotation(callee);
    a.Some? && !a.value.CheckReturnValueIgnore?
  }

  function CalleeOf(ins: Instruction): XMethod {
    XMethod(ins.classOperand, ins.nameOperand, ins.sigOperand, ins.opcode == INVOKESTATIC)
  }

  /** The number of adjacent (invoke, pop) pairs whose call is reportable. */
  function ReportablePairs(code: seq<Instruction>, db: CheckReturnAnnotationDatabase): nat
    decreases |code|
  {
    if |code| < 2 then 0
    else ReportablePairs(code[..|code| - 1], db)
         + (if IsInvoke(code[|code| - 2].opcode) && IsPop(code[|code| - 1].opcode)
               && Reportable(db, CalleeOf(code[|code| - 2])) then 1 else 0)
  }

  /** A report left over from before the scan: a pop first, after a call recorded earlier. */
  function Carry(f: ScanState, code: seq<Instruction>, db: CheckReturnAnnotationDatabase): nat
    requires f.Valid()
  {
    if f.state == SAW_INVOKE && |code| > 0 && IsPop(code[0].opcode) && Reportable(db, f.callSeen.value)
    then 1 else 0
  }

  /** After a scan the state is SAW_INVOKE exactly when the last opcode was an invoke. */
  lemma ScanFinalState(f: ScanState, code: seq<Instruction>, ctx: ScanContext)
    requires f.Valid()
    ensures Scan(f, code, ctx).fields.state == SAW_INVOKE <==>
              if code == [] then f.state == SAW_INVOKE else IsInvoke(code[|code| - 1].opcode)
  {
    if code != [] {
      StepState(Scan(f, code[..|code| - 1], ctx).fields, code[|code| - 1], ctx);
    }
  }

  /** A scan that ends in SAW_INVOKE has recorded its last instruction as the call. */
  lemma ScanRecordsLastCall(f: ScanState, code: seq<Instruction>, ctx: ScanContext)
    requires f.Valid() && code != []
    requires Scan(f, code, ctx).fields.state == SAW_INVOKE
    ensures var g := Scan(f, code, ctx).fields;
            var last := code[|code| - 1];
            g.callPC == last.pc && g.className == last.classOperand
            && g.methodName == last.nameOperand && g.signature == last.sigOperand
            && g.callSeen == Some(CalleeOf(last))
  {
    ScanFinalState(f, code, ctx);
    StepRecordsCall(Scan(f, code[..|code| - 1], ctx).fields, code[|code| - 1], ctx);
  }

  /**
   * A scan reports once for every adjacent (invoke, pop) pair whose call is
   * reportable, plus once if it starts in SAW_INVOKE on a pop.
   */
  lemma {:induction false} ScanReportCount(f: ScanState, code: seq<Instruction>, ctx: ScanContext)
    requires f.Valid()
    ensures |Scan(f, code, ctx).reports| == ReportablePairs(code, ctx.db) + Carry(f, code, ctx.db)
    decreases |code|
  {
    if code == [] {
      return;
    }
    var n := |code|;
    var init := code[..n - 1];
    var prior := Scan(f, init, ctx);
    StepReportsIff(prior.fields, code[n - 1], ctx);
    ScanFinalState(f, init, ctx);
    if n == 1 {
      assert init == [];
    } else {
      ScanReportCount(f, init, ctx);
      assert init[0] == code[0];
      assert init[n - 2] == code[n - 2];
      if prior.fields.state == SAW_INVOKE {
        ScanRecordsLastCall(f, init, ctx);
      }
    }
  }

  /** Reportable pairs are among the adjacent (invoke, pop) pairs. */
  lemma {:induction false} ReportableAtMostPairs(code: seq<Instruction>, db: CheckReturnAnnotationDatabase)
    ensures ReportablePairs(code, db) <= InvokePopPairs(code)
    decreases |code|
  {
    if |code| >= 2 {
      ReportableAtMostPairs(code[..|code| - 1], db);
    }
  }

  /** From SCAN, a scan reports at most once per adjacent (invoke, pop) pair. */
  lemma ScanReportBound(f: ScanState, code: seq<Instruction>, ctx: ScanContext)
    requires f.Valid() && f.state == SCAN
    ensures |Scan(f, code, ctx).reports| <= InvokePopPairs(code)
  {
    ScanReportCount(f, code, ctx);
    ReportableAtMostPairs(code, ctx.db);
  }

  /** Without a pop, or without an invoke, there is no adjacent (invoke, pop) pair. */
  lemma {:induction false} NoPairsWithoutPopOrInvoke(code: seq<Instruction>)
    requires (forall i :: 0 <= i < |code| ==> !IsPop(code[i].opcode))
             || (forall i :: 0 <= i < |code| ==> !IsInvoke(code[i].opcode))
    ensures InvokePopPairs(code) == 0
    decreases |code|
  {
    if |code| >= 2 {
      var init := code[..|code| - 1];
      assert forall i :: 0 <= i < |init| ==> init[i] == code[i];
      NoPairsWithoutPopOrInvoke(init);
      assert !IsInvoke(code[|code| - 2].opcode) || !IsPop(code[|code| - 1].opcode);
    }
  }

  /**
   * From SCAN, the prescreen never skips a method that could report: when the
   * opcode set holds every opcode of the code, a method started in SCAN reports
   * the same findings whether or not it is prescreened.
   */
  lemma PrescreenSound(f: ScanState, ctx: ScanContext)
    requires f.Valid() && f.state == SCAN
    requires ctx.visited.bytecodeSet.Some?
    requires forall i :: 0 <= i < |ctx.visited.code| ==> ctx.visited.code[i].opcode in ctx.visited.bytecodeSet.value
    ensures VisitCodeSpec(f, ctx).reports == Scan(f, ctx.visited.code, ctx).reports
  {
    var code := ctx.visited.code;
    if !Prescreen(ctx.visited.bytecodeSet) {
      var bs := ctx.visited.bytecodeSet.value;
      if exists i :: 0 <= i < |code| && IsPop(code[i].opcode) {
        var i :| 0 <= i < |code| && IsPop(code[i].opcode);
        assert code[i].opcode in bs;
        assert forall j :: 0 <= j < |code| ==> !IsInvoke(code[j].opcode) by {
          forall j | 0 <= j < |code| ensures !IsInvoke(code[j].opcode) {
            assert code[j].opcode in bs;
          }
        }
      }
      NoPairsWithoutPopOrInvoke(code);
      ScanReportBound(f, code, ctx);
    }
  }

  /** Report `b` is for the call at index `i` of `code`, which a pop follows. */
  predicate ReportedAtCall(b: BugInstance, code: seq<Instruction>, i: int) {
    0 <= i < |code| - 1 && IsInvoke(code[i].opcode) && IsPop(code[i + 1].opcode)
    && b.sourceLinePC == code[i].pc && b.calledClass == code[i].classOperand
    && b.calledName == code[i].nameOperand && b.calledSignature == code[i].sigOperand
  }

  /**
   * From SCAN, every finding of a scan belongs to an invoke that a pop follows
   * immediately, names that invoke's operands and sits on the invoke's PC.
   */
  lemma {:induction false} ScanReportsAtCalls(f: ScanState, code: seq<Instruction>, ctx: ScanContext)
    requires f.Valid() && f.state == SCAN
    ensures forall b :: b in Scan(f, code, ctx).reports ==> exists i :: ReportedAtCall(b, code, i)
    decreases |code|
  {
    if code == [] {
      return;
    }
    var n := |code|;
    var init := code[..n - 1];
    var prior := Scan(f, init, ctx);
    var s := Step(prior.fields, code[n - 1], ctx);
    ScanReportsAtCalls(f, init, ctx);
    forall b | b in prior.reports ensures exists i :: ReportedAtCall(b, code, i) {
      var i :| ReportedAtCall(b, init, i);
      assert init[i] == code[i] && init[i + 1] == code[i + 1];
      assert ReportedAtCall(b, code, i);
    }
    if s.report.Some? {
      StepReportsIff(prior.fields, code[n - 1], ctx);
      StepReportContents(prior.fields, code[n - 1], ctx);
      ScanFinalState(f, init, ctx);
      assert init != [];
      ScanRecordsLastCall(f, init, ctx);
      assert init[n - 2] == code[n - 2];
      assert ReportedAtCall(s.report.value, code, n - 2);
    }
  }

  // ---------------------------------------------------------------------
  // Scenarios

  const Foo := Instruction(INVOKEVIRTUAL, 0, "Foo", "bar", "()I")

  function Db(a: CheckReturnValueAnnotation, direct: bool): CheckReturnAnnotationDatabase {
    CheckReturnAnnotationDatabase(m => Some(a), m => direct)
  }

  function Visited(code: seq<Instruction>, tryBlockSize: int): MethodInfo {
    MethodInfo("client", "()V", code, Some(set i | 0 <= i < |code| :: code[i].opcode), pc => tryBlockSize)
  }

  /** An unguarded, directly annotated call popped at once: one finding at the annotation's priority. */
  lemma UnguardedDirectCall()
    ensures var code := [Foo, Instruction(POP, 3, "", "", "")];
            Scan(InitialScanState, code, ScanContext(Db(CheckReturnValue(1), true), "Client",
                                                      Visited(code, 0x7fff_ffff))).reports
            == [BugInstance(RV_RETURN_VALUE_IGNORED, 1, "Client", "client", "()V",
                            "Foo", "bar", "()I", false, 0)]
  {
    var code := [Foo, Instruction(POP, 3, "", "", "")];
    assert code[..1][..0] == [];
  }

  /** The same call with the pop inside a try block of size 1: priority 1 + 2. */
  lemma TightTryBlock()
    ensures var code := [Foo, Instruction(POP, 3, "", "", "")];
            var r := Scan(InitialScanState, code, ScanContext(Db(CheckReturnValue(1), true), "Client",
                                                      Visited(code, 1))).reports;
            |r| == 1 && r[0].priority == 3
  {
    var code := [Foo, Instruction(POP, 3, "", "", "")];
    assert code[..1][..0] == [];
  }

  /**
   * An inherited annotation on a call that does not return its own class,
   * outside any try block: priority 2 + 0 + 1.
   */
  lemma InheritedNonSelfReturning()
    ensures var code := [Instruction(INVOKEVIRTUAL, 0, "C", "method", "()I"), Instruction(POP, 3, "", "", "")];
            var r := Scan(InitialScanState, code, ScanContext(Db(CheckReturnValue(2), false), "Client",
                                                      Visited(code, 0x7fff_ffff))).reports;
            |r| == 1 && r[0].priority == 3
  {
    var code := [Instruction(INVOKEVIRTUAL, 0, "C", "method", "()I"), Instruction(POP, 3, "", "", "")];
    assert code[..1][..0] == [];
    assert !EndsWith("()I", Replace("C", '.', '/') + ";") by {
      assert Replace("C", '.', '/') + ";" == "C;";
      assert "()I"[2] != "C;"[1];
    }
  }

  /** An instruction between the call and the pop cancels the match. */
  lemma InterveningInstructionCancels()
    ensures var code := [Instruction(INVOKESTATIC, 0, "Util", "get", "()I"),
                         Instruction(DUP, 3, "", "", ""), Instruction(POP, 4, "", "", "")];
            Scan(InitialScanState, code, ScanContext(Db(CheckReturnValue(1), true), "Client",
                                                      Visited(code, 0x7fff_ffff))).reports == []
  {
    var code := [Instruction(INVOKESTATIC, 0, "Util", "get", "()I"),
                 Instruction(DUP, 3, "", "", ""), Instruction(POP, 4, "", "", "")];
    assert code[..2] == [code[0], code[1]];
    assert code[..2][..1] == [code[0]];
    assert InvokePopPairs(code[..2][..1]) == 0;
    assert InvokePopPairs(code[..2]) == 0;
    assert InvokePopPairs(code) == 0;
    ScanReportBound(InitialScanState, code, ScanContext(Db(CheckReturnValue(1), true), "Client",
                                                        Visited(code, 0x7fff_ffff)));
  }

  /**
   * The state is not reset between methods: a method whose code ends in an
   * invoke leaves SAW_INVOKE behind, and a next method starting with a pop
   * reports that earlier call, at its PC in the earlier method.
   */
  lemma StateCarriesAcrossMethods(db: CheckReturnAnnotationDatabase)
    requires Reportable(db, CalleeOf(Foo))
    ensures var first := Visited([Instruction(POP, 0, "", "", ""), Foo.(pc := 1)], 0x7fff_ffff);
            var second := Visited([Instruction(POP2, 0, "", "", ""), Foo.(pc := 1)], 0x7fff_ffff);
            var r := VisitMethods(InitialScanState, "Client", db, [first, second]).reports;
            |r| == 1 && r[0].calledName == "bar" && r[0].sourceLinePC == 1
  {
    var first := Visited([Instruction(POP, 0, "", "", ""), Foo.(pc := 1)], 0x7fff_ffff);
    var second := Visited([Instruction(POP2, 0, "", "", ""), Foo.(pc := 1)], 0x7fff_ffff);
    var c1 := ScanContext(db, "Client", first);
    var c2 := ScanContext(db, "Client", second);
    assert Prescreen(first.bytecodeSet) by {
      assert POP in first.bytecodeSet.value && IsPop(POP) by {
        assert first.code[0].opcode == POP;
      }
      assert INVOKEVIRTUAL in first.bytecodeSet.value && IsInvoke(INVOKEVIRTUAL) by {
        assert first.code[1].opcode == INVOKEVIRTUAL;
      }
    }
    assert Prescreen(second.bytecodeSet) by {
      assert POP2 in second.bytecodeSet.value && IsPop(POP2) by {
        assert second.code[0].opcode == POP2;
      }
      assert INVOKEVIRTUAL in second.bytecodeSet.value && IsInvoke(INVOKEVIRTUAL) by {
        assert second.code[1].opcode == INVOKEVIRTUAL;
      }
    }
    assert [first, second][..1] == [first];
    assert [first, second][..1][..0] == [];
    var s1 := Scan(InitialScanState, first.code, c1);
    ScanReportCount(InitialScanState, first.code, c1);
    assert first.code[..1][..0] == [];
    assert ReportablePairs(first.code, db) == 0;
    ScanFinalState(InitialScanState, first.code, c1);
    ScanRecordsLastCall(InitialScanState, first.code, c1);
    assert second.code[..1][..0] == [];
    assert second.code[..1] == [second.code[0]];
    var s2 := Scan(s1.fields, second.code[..1], c2);
    assert Scan(s1.fields, second.code[..1][..0], c2) == ScanResult(s1.fields, []);
    assert Step(s1.fields, second.code[0], c2).report == ReportFor(s1.fields, second.code[0], c2);
    assert s2.reports == OptionToSeq(ReportFor(s1.fields, second.code[0], c2));
    assert Step(s2.fields, second.code[1], c2).report == None;
    assert VisitCodeSpec(s1.fields, c2).reports == s2.reports;
    assert VisitMethods(InitialScanState, "Client", db, [first]).reports == s1.reports;
    assert VisitMethods(InitialScanState, "Client", db, [first]).fields == s1.fields;
  }

  /**
   * Outside SCAN the prescreen is not sound: a call left pending by an earlier
   * method is reported by a scan of `[POP]`, but `[POP]` fails the prescreen,
   * so the method is skipped and the carried finding is dropped.
   */
  lemma PrescreenDropsCarriedReport(db: CheckReturnAnnotationDatabase)
    requires Reportable(db, CalleeOf(Foo))
    ensures var f := ScanState(SAW_INVOKE, 1, "Foo", "bar", "()I", Some(CalleeOf(Foo)));
            var code := [Instruction(POP, 0, "", "", "")];
            var ctx := ScanContext(db, "Client", MethodInfo("client", "()V", code, Some({POP}), pc => 0x7fff_ffff));
            VisitCodeSpec(f, ctx).reports == [] && |Scan(f, code, ctx).reports| == 1
  {
    var f := ScanState(SAW_INVOKE, 1, "Foo", "bar", "()I", Some(CalleeOf(Foo)));
    var code := [Instruction(POP, 0, "", "", "")];
    var ctx := ScanContext(db, "Client", MethodInfo("client", "()V", code, Some({POP}), pc => 0x7fff_ffff));
    assert !Prescreen(Some({POP})) by {
      assert !IsInvoke(POP);
    }
    assert code[..0] == [];
  }

  /**
   * A skipped method also keeps the fields as they were: `[invokevirtual]`
   * fails the prescreen and leaves SCAN, where a scan would leave SAW_INVOKE.
   */
  lemma PrescreenKeepsSkippedState()
    ensures var code := [Foo];
            var ctx := ScanContext(Db(CheckReturnValue(1), true), "Client",
                                   MethodInfo("client", "()V", code, Some({INVOKEVIRTUAL}), pc => 0x7fff_ffff));
            VisitCodeSpec(InitialScanState, ctx).fields.state == SCAN
            && Scan(InitialScanState, code, ctx).fields.state == SAW_INVOKE
  {
    var code := [Foo];
    assert !Prescreen(Some({INVOKEVIRTUAL})) by {
      assert !IsPop(INVOKEVIRTUAL);
    }
    assert code[..0] == [];
  }

  /**
   * The scan walks every instruction, reachable or not: an invoke after the
   * method's `return` still leaves SAW_INVOKE and its PC behind for the next
   * method.
   */
  lemma UnreachableInvokeLeavesSawInvoke(ctx: ScanContext)
    ensures var code := [Foo, Instruction(POP, 3, "", "", ""), Instruction(RETURN, 4, "", "", ""), Foo.(pc := 5)];
            var g := Scan(InitialScanState, code, ctx).fields;
            g.state == SAW_INVOKE && g.callPC == 5
  {
    var code := [Foo, Instruction(POP, 3, "", "", ""), Instruction(RETURN, 4, "", "", ""), Foo.(pc := 5)];
    ScanFinalState(InitialScanState, code, ctx);
    ScanRecordsLastCall(InitialScanState, code, ctx);
  }
}
