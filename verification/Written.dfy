/** The factorial program can be written down as text. */
module Written {
  import opened Wrappers
  import opened Syntax
  import opened Printer
  import opened Programs
  import opened SourceInversion
  import Lexer
  import Numerals
  import Values

  lemma LitWritten(n: int)
    ensures Printable(Lit(n)) && Named(Lit(n))
  {
    Numerals.IntTextReads(n);
    assert Writable(Int(n));
  }

  lemma NumberCompared(op: BinaryOp)
    ensures var e := BinOp(N, op, Lit(1)); Printable(e) && Named(e)
  {
    LitWritten(1);
    assert Printable(N) && Named(N) && !Hangs(Lit(1));
    hide Writable;
  }

  lemma FactNames()
    ensures Lexer.IsIdent("fact") && Lexer.IsIdent("n") && Lexer.IsIdent("r")
  {
  }

  lemma CallWritten(e: Expr)
    requires Printable(e) && Named(e)
    ensures var call := FnCallExpr("fact", [e]); Printable(call) && Named(call)
  {
    FactNames();
    assert AllPrintable([e]) && AllNamed([e]);
    hide Lexer.IsIdent;
  }

  lemma StepWritten()
    ensures Printable(FactStep()) && Named(FactStep())
  {
    var arg := BinOp(N, SubOp, Lit(1));
    NumberCompared(SubOp);
    CallWritten(arg);
    assert FactStep() == BinOp(N, MulOp, FnCallExpr("fact", [arg]));
    assert Printable(N) && Named(N);
    hide Writable, Lexer.IsIdent;
  }

  lemma BodyWritten()
    ensures BlockPrintable(FactBody()) && BlockNamed(FactBody())
  {
    NumberCompared(LeOp);
    LitWritten(1);
    StepWritten();
    var one, last := ReturnStmt(Some(Lit(1))), ReturnStmt(Some(FactStep()));
    hide Formed, Hangs, Named, FactStep;
    assert BlockPrintable([one]) && BlockNamed([one]);
    var test := IfStmt(BinOp(N, LeOp, Lit(1)), [one], [], NoElse);
    assert StmtPrintable(test) && StmtNamed(test);
    assert FactBody() == [test, last];
  }

  lemma FactorialIsWritten(n: int)
    ensures BlockPrintable(FactProgram(n)) && BlockNamed(FactProgram(n))
  {
    FactNames();
    BodyWritten();
    LitWritten(n);
    CallWritten(Lit(n));
    hide Formed, Hangs, Named, FactBody, Lexer.IsIdent;
    var define, call := FnDef("fact", ["n"], FactBody()), LetStmt("r", FnCallExpr("fact", [Lit(n)]));
    assert StmtPrintable(define) && StmtNamed(define);
    assert StmtPrintable(call) && StmtNamed(call);
    assert FactProgram(n) == [define, call];
  }
}
