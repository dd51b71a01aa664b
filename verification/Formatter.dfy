/** The formatter as it runs (internal/dsl/format.go): buckets filled in loops, then one write after the other.
    A write appends a piece, a token with the whitespace around it; write errors are not part of this model. */
module Formatter {
  import opened Ast
  import opened Decimal
  import opened Lexer
  import opened Layout
  import opened OrderEntries
  import opened Sorting
  import opened StableBuckets
  import P = Printer

  class Writer {
    var out: seq<Piece>

    constructor ()
      ensures out == []
    {
      out := [];
    }

    method Write(ps: seq<Piece>)
      modifies this
      ensures out == old(out) + ps
    {
      out := out + ps;
    }

    /** Quoted elements between brackets, a comma before each but the first. */
    method WriteList(es: seq<string>, after: string)
      modifies this
      ensures out == old(out) + P.Bracketed(es, after)
    {
      Write([P.Mark("", '[', "")]);
      WriteElements(es, after);
      Shift(old(out), [P.Mark("", '[', "")], P.Elements(es, after));
    }

    method WriteElement(e: string, first: bool)
      modifies this
      ensures out == old(out) + ElementPieces(e, first)
    {
      if !first {
        Write([P.Mark("", ',', " ")]);
      }
      Write([P.QuotedPiece("", e, "")]);
    }

    method WriteElements(es: seq<string>, after: string)
      modifies this
      ensures out == old(out) + P.Elements(es, after)
    {
      ghost var start := out;
      for i := 0 to |es|
        invariant out + ElementsLeft(es, i, after) == start + P.Elements(es, after)
      {
        ElementsStep(out, es, i, after);
        WriteElement(es[i], i == 0);
      }
      Write([P.Mark("", ']', after)]);
    }

    /** Words with single spaces between them. */
    method WriteWords(ws: seq<string>, before: string, after: string)
      modifies this
      ensures out == old(out) + P.Words(ws, before, after)
    {
      ghost var start := out;
      for i := 0 to |ws|
        invariant out + WordsLeft(ws, i, before, after) == start + P.Words(ws, before, after)
      {
        WordsStep(out, ws, i, before, after);
        Write([Piece(if i == 0 then before else "", Word(ws[i]), if i == |ws| - 1 then after else " ")]);
      }
    }

    /** Names with a comma and a space between them. */
    method WriteNames(names: seq<string>, after: string)
      modifies this
      ensures out == old(out) + P.CommaWords(names, after)
    {
      ghost var start := out;
      for i := 0 to |names|
        invariant out + NamesLeft(names, i, after) == start + P.CommaWords(names, after)
      {
        NamesStep(out, names, i, after);
        if i == |names| - 1 {
          Write([Piece("", Word(names[i]), after)]);
        } else {
          Write([Piece("", Word(names[i]), ""), P.Mark("", ',', " ")]);
        }
      }
      if names == [] {
        Write([Piece("", Gap, after)]);
      }
    }

    method WriteQuotedWords(paths: seq<string>, after: string)
      modifies this
      ensures out == old(out) + P.QuotedWords(paths, after)
    {
      ghost var start := out;
      for i := 0 to |paths|
        invariant out + P.QuotedWords(paths[i..], after) == start + P.QuotedWords(paths, after)
      {
        QuotedStep(out, paths, i, after);
        Write([P.QuotedPiece("", paths[i], if i == |paths| - 1 then after else " ")]);
      }
    }

    method WritePairs(pairs: seq<EnvPair>)
      modifies this
      ensures out == old(out) + P.PairPieces(pairs)
    {
      ghost var start := out;
      for i := 0 to |pairs|
        invariant out + P.PairPieces(pairs[i..]) == start + P.PairPieces(pairs)
      {
        assert pairs[i..][1..] == pairs[i + 1..];
        Shift(out, [P.Keyword(" ", pairs[i].key), P.ValuePiece(pairs[i].value)], P.PairPieces(pairs[i + 1..]));
        Write([P.Keyword(" ", pairs[i].key), P.ValuePiece(pairs[i].value)]);
      }
    }

    method WriteEnv(pairs: seq<EnvPair>, indent: string)
      modifies this
      ensures out == old(out) + P.EnvPieces(pairs, indent)
    {
      Write([P.Keyword(indent, "env"), P.Mark("", '{', "")]);
      WritePairs(pairs);
      Write([P.Mark(" ", '}', "\n")]);
      Joined(old(out), [P.Keyword(indent, "env"), P.Mark("", '{', "")], P.PairPieces(pairs), [P.Mark(" ", '}', "\n")]);
    }

    method WriteStep(s: Step, before: string, after: string)
      modifies this
      ensures out == old(out) + P.StepPieces(s, before, after)
    {
      if s.Exec? {
        Write([P.Keyword(before, "exec")]);
        WriteList(s.argv, after);
        Shift(old(out), [P.Keyword(before, "exec")], P.Bracketed(s.argv, after));
      } else if s.Cmd? {
        if s.tokens != [] {
          WriteWords(["cmd"] + s.tokens, before, after);
        } else {
          Write([Piece(before, Gap, after)]);
        }
      } else {
        Write([P.Keyword(before, "shell"), P.Keyword("", s.runner), P.QuotedPiece("", s.script, after)]);
      }
    }

    method WriteStepList(steps: seq<Step>, before: string)
      modifies this
      ensures out == old(out) + P.StepList(steps, before)
    {
      ghost var start := out;
      for i := 0 to |steps|
        invariant out + P.StepList(steps[i..], before) == start + P.StepList(steps, before)
      {
        assert steps[i..][1..] == steps[i + 1..];
        Shift(out, P.StepPieces(steps[i], before, ""), P.StepList(steps[i + 1..], before));
        WriteStep(steps[i], before, "");
      }
    }

    method WriteSteps(steps: seq<Step>, indent: string)
      modifies this
      ensures out == old(out) + P.StepsPieces(steps, indent)
    {
      var inner := if |steps| == 1 then " " else "\n" + indent + "  ";
      var outer := if |steps| <= 1 then " " else "\n" + indent;
      Write([P.Keyword(indent, "steps"), P.Mark("", '{', "")]);
      WriteStepList(steps, inner);
      Write([P.Mark(outer, '}', "\n")]);
      Joined(old(out), [P.Keyword(indent, "steps"), P.Mark("", '{', "")], P.StepList(steps, inner),
        [P.Mark(outer, '}', "\n")]);
    }

    /** Empty steps and env blocks of a preset are not written. */
    method WritePresetEntry(e: PresetEntry, indent: string)
      modifies this
      ensures out == old(out) + P.PresetEntryPieces(e, indent)
    {
      match e {
        case PresetDesc(text) => Write([P.Keyword(indent, "desc"), P.QuotedPiece("", text, "\n")]);
        case PresetSteps(steps) =>
          if steps != [] {
            WriteSteps(steps, indent);
          }
        case PresetArgv(argv) =>
          Write([P.Keyword(indent, "argv")]);
          WriteList(argv, "\n");
          Shift(old(out), [P.Keyword(indent, "argv")], P.Bracketed(argv, "\n"));
        case PresetEnv(pairs) =>
          if pairs != [] {
            WriteEnv(pairs, indent);
          }
      }
    }

    method WritePresetEntries(entries: seq<PresetEntry>, indent: string)
      modifies this
      ensures out == old(out) + P.PresetEntryList(entries, indent)
    {
      ghost var start := out;
      for i := 0 to |entries|
        invariant out + P.PresetEntryList(entries[i..], indent) == start + P.PresetEntryList(entries, indent)
      {
        assert entries[i..][1..] == entries[i + 1..];
        Shift(out, P.PresetEntryPieces(entries[i], indent), P.PresetEntryList(entries[i + 1..], indent));
        WritePresetEntry(entries[i], indent);
      }
    }

    method WritePreset(name: string, entries: seq<PresetEntry>, indent: string)
      modifies this
      ensures out == old(out) + (P.Header(indent, "preset", name) +
        (P.PresetEntryList(entries, indent + "  ") + [P.Mark(indent, '}', "\n")]))
    {
      Write(P.Header(indent, "preset", name));
      WritePresetEntries(entries, indent + "  ");
      Write([P.Mark(indent, '}', "\n")]);
      Joined(old(out), P.Header(indent, "preset", name), P.PresetEntryList(entries, indent + "  "),
        [P.Mark(indent, '}', "\n")]);
    }

    method WriteWorkflowItems(items: seq<WorkflowEntry>)
      modifies this
      ensures out == old(out) + P.WorkflowList(items)
    {
      ghost var start := out;
      for i := 0 to |items|
        invariant out + P.WorkflowList(items[i..]) == start + P.WorkflowList(items)
      {
        assert items[i..][1..] == items[i + 1..];
        Shift(out, P.WorkflowPieces(items[i]), P.WorkflowList(items[i + 1..]));
        match items[i] {
          case Item(name) => Write([Piece(" ", Word(name), "")]);
          case Cron(spec) => Write([P.Keyword(" ", "schedule"), P.Keyword("", "cron"), P.QuotedPiece("", spec, "")]);
          case Interval(spec) => Write([P.Keyword(" ", "schedule"), P.Keyword("", "interval"),
            P.QuotedPiece("", spec, "")]);
        }
      }
    }

    method WriteWorkflow(items: seq<WorkflowEntry>, indent: string)
      modifies this
      ensures out == old(out) +
        ([P.Keyword(indent, "workflow"), P.Mark("", '{', "")] + (P.WorkflowList(items) + [P.Mark(" ", '}', "\n")]))
    {
      Write([P.Keyword(indent, "workflow"), P.Mark("", '{', "")]);
      WriteWorkflowItems(items);
      Write([P.Mark(" ", '}', "\n")]);
      Joined(old(out), [P.Keyword(indent, "workflow"), P.Mark("", '{', "")], P.WorkflowList(items),
        [P.Mark(" ", '}', "\n")]);
    }

    /** Clauses with a list in brackets. */
    method WriteListClause(e: BodyEntry, indent: string)
      requires e.WhenCmd? || e.Inputs? || e.Outputs?
      modifies this
      ensures out == old(out) + P.ClausePieces(e, indent)
    {
      var head := if e.WhenCmd? then [P.Keyword(indent, "when"), P.Keyword("", "cmd")]
                  else [P.Keyword(indent, if e.Inputs? then "inputs" else "outputs")];
      var es := if e.WhenCmd? then e.argv else e.paths;
      Write(head);
      WriteList(es, "\n");
      Shift(old(out), head, P.Bracketed(es, "\n"));
    }

    /** Clauses with a block in braces. */
    method WriteBlockClause(e: BodyEntry, indent: string)
      requires e.Env? || e.PresetBlock? || e.Workflow? || e.Steps?
      modifies this
      ensures out == old(out) + P.ClausePieces(e, indent)
    {
      match e {
        case Env(pairs) => WriteEnv(pairs, indent);
        case PresetBlock(name, entries) => WritePreset(name, entries, indent);
        case Workflow(items) => WriteWorkflow(items, indent);
        case Steps(steps) => WriteSteps(steps, indent);
      }
    }

    /** Clauses with an open list of words. */
    method WriteWordsClause(e: BodyEntry, indent: string)
      requires e.Deps? || e.Args? || e.Tags?
      modifies this
      ensures out == old(out) + P.ClausePieces(e, indent)
    {
      match e {
        case Deps(names) =>
          Write([P.Keyword(indent, "deps")]);
          WriteNames(names, "\n");
          Shift(old(out), [P.Keyword(indent, "deps")], P.CommaWords(names, "\n"));
        case Args(name, typ, short, default) =>
          var ws := ["args", name, typ];
          if short != "" {
            ws := ws + [short];
          }
          if default != "" {
            ws := ws + [default];
          }
          assert ws == P.ArgWords(name, typ, short, default);
          WriteWords(ws, indent, "\n");
        case Tags(tags) => WriteWords(["tags"] + tags, indent, "\n");
      }
    }

    /** Clauses with quoted text or a number. */
    method WriteTextClause(e: BodyEntry, indent: string)
      requires e.Desc? || e.ImageString? || e.Passthrough? || e.Vol?
      modifies this
      ensures out == old(out) + P.ClausePieces(e, indent)
    {
      match e {
        case Desc(text) => Write([P.Keyword(indent, "desc"), P.QuotedPiece("", text, "\n")]);
        case ImageString(image) => Write([P.Keyword(indent, "image"), P.QuotedPiece("", image, "\n")]);
        case Passthrough(slot, slotName) => WritePassthrough(slot, slotName, indent);
        case Vol(name, hostPath) =>
          if hostPath != "" {
            Write([P.Keyword(indent, "vol"), P.Keyword("", name), P.QuotedPiece("", hostPath, "\n")]);
          } else {
            WriteWords(["vol", name], indent, "\n");
          }
      }
    }

    method WritePassthrough(slot: nat, slotName: string, indent: string)
      modifies this
      ensures out == old(out) + P.PassthroughPieces(slot, slotName, indent)
    {
      var head := [P.Keyword(indent, "passthrough"), P.Keyword("", "step"), P.Mark("", '=', " ")];
      Write(head);
      if slotName != "" {
        Write([Piece("", Num(Text(slot)), " "), P.Keyword("", "name"), P.QuotedPiece("", slotName, "\n")]);
        Shift(old(out), head,
          [Piece("", Num(Text(slot)), " "), P.Keyword("", "name"), P.QuotedPiece("", slotName, "\n")]);
      } else {
        Write([Piece("", Num(Text(slot)), "\n")]);
        Shift(old(out), head, [Piece("", Num(Text(slot)), "\n")]);
      }
    }

    /** Clauses of one or two words. */
    method WriteShortClause(e: BodyEntry, indent: string)
      requires e.WhenEnv? || e.Cwd? || e.Private? || e.Pool? || e.Mutex? || e.ImageIdent? || e.Unsafe? || e.Net?
      modifies this
      ensures out == old(out) + P.ClausePieces(e, indent)
    {
      match e {
        case WhenEnv(variable) => WriteWords(["when", "env", variable], indent, "\n");
        case Cwd(path) => WriteWords(["cwd", path], indent, "\n");
        case Private => WriteWords(["private"], indent, "\n");
        case Pool(name) => WriteWords(["pool", name], indent, "\n");
        case Mutex(name) => WriteWords(["mutex", name], indent, "\n");
        case ImageIdent(image) => WriteWords(["image", image], indent, "\n");
        case Unsafe => WriteWords(["unsafe"], indent, "\n");
        case Net(name) => WriteWords(["net", name], indent, "\n");
      }
    }

    /** One clause of a target that is no daemon. */
    method WriteClause(e: BodyEntry, indent: string)
      modifies this
      ensures out == old(out) + P.ClausePieces(e, indent)
    {
      if e.WhenCmd? || e.Inputs? || e.Outputs? {
        WriteListClause(e, indent);
      } else if e.Env? || e.PresetBlock? || e.Workflow? || e.Steps? {
        WriteBlockClause(e, indent);
      } else if e.OneStep? {
        WriteStep(e.step, indent, "\n");
      } else if e.Deps? || e.Args? || e.Tags? {
        WriteWordsClause(e, indent);
      } else if e.Desc? || e.ImageString? || e.Passthrough? || e.Vol? {
        WriteTextClause(e, indent);
      } else if !e.DaemonBlock? {
        WriteShortClause(e, indent);
      }
    }

    method WriteDaemonClause(e: BodyEntry, indent: string)
      modifies this
      ensures out == old(out) + DaemonPieces(e, indent)
    {
      if P.InDaemon(e) {
        WriteClause(e, indent);
      }
    }

    /** The clauses a daemon is written with; others are skipped. */
    method WriteDaemonClauses(entries: seq<BodyEntry>, indent: string)
      modifies this
      ensures out == old(out) + P.ClauseList(P.DaemonClauses(entries), indent)
    {
      ghost var start := out;
      assert entries[0..] == entries;
      for i := 0 to |entries|
        invariant out + P.ClauseList(P.DaemonClauses(entries[i..]), indent) ==
          start + P.ClauseList(P.DaemonClauses(entries), indent)
      {
        DaemonStep(out, entries, i, indent);
        WriteDaemonClause(entries[i], indent);
      }
    }

    method WriteDaemon(name: string, body: seq<BodyEntry>, indent: string)
      modifies this
      ensures out == old(out) + P.EntryPieces(DaemonBlock(name, body), indent)
    {
      Write(P.Header(indent, "daemon", name));
      var entries := OrderBodyEntries(body);
      WriteDaemonClauses(entries, indent + "  ");
      Write([P.Mark(indent, '}', "\n")]);
      Joined(old(out), P.Header(indent, "daemon", name), P.ClauseList(P.DaemonClauses(entries), indent + "  "),
        [P.Mark(indent, '}', "\n")]);
    }

    method WriteEntries(entries: seq<BodyEntry>, indent: string)
      modifies this
      ensures out == old(out) + P.EntryList(entries, indent)
    {
      ghost var start := out;
      for i := 0 to |entries|
        invariant out + P.EntryList(entries[i..], indent) == start + P.EntryList(entries, indent)
      {
        assert entries[i..][1..] == entries[i + 1..];
        Shift(out, P.EntryPieces(entries[i], indent), P.EntryList(entries[i + 1..], indent));
        if entries[i].DaemonBlock? {
          WriteDaemon(entries[i].name, entries[i].body, indent);
        } else {
          WriteClause(entries[i], indent);
        }
      }
    }

    method WriteTarget(name: string, form: TargetForm, before: string)
      modifies this
      ensures out == old(out) + P.TargetPieces(name, form, before)
    {
      if form.SingleLine? && form.tokens != [] {
        WriteWords(["target", name, "cmd"] + form.tokens, before, "\n");
      } else {
        Write(P.Header(before, "target", name));
        var entries := OrderBodyEntries(if form.Braced? then form.body else []);
        WriteEntries(entries, "  ");
        Write([P.Mark("", '}', "\n")]);
        Joined(old(out), P.Header(before, "target", name), P.EntryList(entries, "  "), [P.Mark("", '}', "\n")]);
      }
    }

    method WriteMembers(members: seq<SuiteEntry>)
      modifies this
      ensures out == old(out) + P.MemberPieces(members)
    {
      ghost var start := out;
      for i := 0 to |members|
        invariant out + P.MemberPieces(members[i..]) == start + P.MemberPieces(members)
      {
        assert members[i..][1..] == members[i + 1..];
        Shift(out, [Piece("  ", Word(P.MemberText(members[i])), "\n")], P.MemberPieces(members[i + 1..]));
        Write([Piece("  ", Word(P.MemberText(members[i])), "\n")]);
      }
    }

    method WriteSuite(name: string, members: seq<SuiteEntry>, before: string)
      modifies this
      ensures out == old(out) + P.BlockPieces(SuiteBlock(name, members), before)
    {
      Write(P.Header(before, "suite", name));
      var sorted := SortBy(Raw, members);
      WriteMembers(sorted);
      Write([P.Mark("", '}', "\n")]);
      Joined(old(out), P.Header(before, "suite", name), P.MemberPieces(sorted), [P.Mark("", '}', "\n")]);
    }

    /** Empty dotenv lines and env blocks of a profile are not written. */
    method WriteSetting(e: ProfileEntry)
      modifies this
      ensures out == old(out) + P.SettingPieces(e)
    {
      match e {
        case ProfileDotenv(paths) =>
          if paths != [] {
            Write([P.Keyword("  ", "dotenv")]);
            WriteQuotedWords(paths, "\n");
            Shift(old(out), [P.Keyword("  ", "dotenv")], P.QuotedWords(paths, "\n"));
          }
        case ProfileEnv(pairs) =>
          if pairs != [] {
            WriteEnv(pairs, "  ");
          }
      }
    }

    method WriteSettings(settings: seq<ProfileEntry>)
      modifies this
      ensures out == old(out) + P.SettingList(settings)
    {
      ghost var start := out;
      for i := 0 to |settings|
        invariant out + P.SettingList(settings[i..]) == start + P.SettingList(settings)
      {
        assert settings[i..][1..] == settings[i + 1..];
        Shift(out, P.SettingPieces(settings[i]), P.SettingList(settings[i + 1..]));
        WriteSetting(settings[i]);
      }
    }

    method WriteProfile(name: string, settings: seq<ProfileEntry>, before: string)
      modifies this
      ensures out == old(out) + P.BlockPieces(ProfileBlock(name, settings), before)
    {
      Write(P.Header(before, "profile", name));
      WriteSettings(settings);
      Write([P.Mark("", '}', "\n")]);
      Joined(old(out), P.Header(before, "profile", name), P.SettingList(settings), [P.Mark("", '}', "\n")]);
    }

    method WriteBlock(e: FileEntry, before: string)
      modifies this
      ensures out == old(out) + P.BlockPieces(e, before)
    {
      match e {
        case SuiteBlock(name, members) => WriteSuite(name, members, before);
        case ProfileBlock(name, settings) => WriteProfile(name, settings, before);
        case TargetBlock(name, form) => WriteTarget(name, form, before);
        case Import(path) => Write([P.Keyword(before, "import"), P.QuotedPiece("", path, "\n")]);
        case PrivateMarker => WriteWords(["private"], before, "\n");
      }
    }

    /** Blocks with an empty line between them. */
    method WriteBlocks(blocks: seq<FileEntry>)
      modifies this
      ensures out == old(out) + P.BlockList(blocks, "")
    {
      ghost var start := out;
      var before := "";
      for i := 0 to |blocks|
        invariant before == if i == 0 then "" else "\n"
        invariant out + P.BlockList(blocks[i..], before) == start + P.BlockList(blocks, "")
      {
        assert blocks[i..][1..] == blocks[i + 1..];
        Shift(out, P.BlockPieces(blocks[i], before), P.BlockList(blocks[i + 1..], "\n"));
        WriteBlock(blocks[i], before);
        before := "\n";
      }
    }

    method WriteDotenv(files: seq<string>)
      modifies this
      ensures out == old(out) + DotenvPieces(files)
    {
      if files != [] {
        WriteWords(["dotenv"] + files, "", "\n\n");
      }
    }

    /** The dotenv line, then the blocks by kind and name. */
    method WriteBakefile(ast: Bakefile)
      modifies this
      ensures out == old(out) + P.FilePieces(ast)
    {
      WriteDotenv(ast.dotenv);
      var blocks := Arrange(ast.entries);
      WriteBlocks(blocks);
      FileJoined(old(out), ast);
    }
  }

  ghost function DotenvPieces(files: seq<string>): seq<Piece> {
    if files == [] then [] else P.Words(["dotenv"] + files, "", "\n\n")
  }

  lemma {:induction false} FileJoined(before: seq<Piece>, ast: Bakefile)
    ensures before + DotenvPieces(ast.dotenv) + P.BlockList(P.Arranged(ast.entries), "") == before + P.FilePieces(ast)
  {
    Shift(before, DotenvPieces(ast.dotenv), P.BlockList(P.Arranged(ast.entries), ""));
  }

  lemma {:induction false} Shift<T>(a: seq<T>, b: seq<T>, c: seq<T>)
    ensures a + b + c == a + (b + c)
  {
  }

  lemma {:induction false} Joined<T>(a: seq<T>, b: seq<T>, c: seq<T>, d: seq<T>)
    ensures a + b + c + d == a + (b + (c + d))
  {
  }

  /** What is left of the words when `i` of them are written. */
  ghost function WordsLeft(ws: seq<string>, i: nat, before: string, after: string): seq<Piece>
    requires i <= |ws|
  {
    if i == 0 then P.Words(ws, before, after) else P.Words(ws[i..], "", after)
  }

  lemma {:induction false} WordsStep(out: seq<Piece>, ws: seq<string>, i: nat, before: string, after: string)
    requires i < |ws|
    ensures out + WordsLeft(ws, i, before, after)
         == out + [Piece(if i == 0 then before else "", Word(ws[i]), if i == |ws| - 1 then after else " ")]
            + WordsLeft(ws, i + 1, before, after)
  {
    var rest := ws[i..];
    assert rest[1..] == ws[i + 1..];
    assert i == 0 ==> rest == ws;
  }

  ghost function NamesLeft(names: seq<string>, i: nat, after: string): seq<Piece>
    requires i <= |names|
  {
    if i == |names| && i > 0 then [] else P.CommaWords(names[i..], after)
  }

  lemma {:induction false} NamesStep(out: seq<Piece>, names: seq<string>, i: nat, after: string)
    requires i < |names|
    ensures out + NamesLeft(names, i, after)
         == out + (if i == |names| - 1 then [Piece("", Word(names[i]), after)]
                   else [Piece("", Word(names[i]), ""), P.Mark("", ',', " ")])
            + NamesLeft(names, i + 1, after)
  {
    assert names[i..][1..] == names[i + 1..];
  }

  lemma {:induction false} QuotedStep(out: seq<Piece>, paths: seq<string>, i: nat, after: string)
    requires i < |paths|
    ensures out + P.QuotedWords(paths[i..], after)
         == out + [P.QuotedPiece("", paths[i], if i == |paths| - 1 then after else " ")]
           + P.QuotedWords(paths[i + 1..], after)
  {
    assert paths[i..][1..] == paths[i + 1..];
  }

  /** What is left of the elements when `i` of them are written: a comma first, unless none is. */
  ghost function ElementsLeft(es: seq<string>, i: nat, after: string): seq<Piece>
    requires i <= |es|
  {
    if i == 0 then P.Elements(es, after)
    else if i == |es| then [P.Mark("", ']', after)]
    else [P.Mark("", ',', " ")] + P.Elements(es[i..], after)
  }

  ghost function ElementPieces(e: string, first: bool): seq<Piece> {
    (if first then [] else [P.Mark("", ',', " ")]) + [P.QuotedPiece("", e, "")]
  }

  lemma {:induction false} ElementsStep(out: seq<Piece>, es: seq<string>, i: nat, after: string)
    requires i < |es|
    ensures out + ElementsLeft(es, i, after) == out + ElementPieces(es[i], i == 0) + ElementsLeft(es, i + 1, after)
  {
    var rest := es[i..];
    assert rest[1..] == es[i + 1..];
    assert P.Elements(rest, after) == [P.QuotedPiece("", es[i], "")] + ElementsLeft(es, i + 1, after);
    assert i == 0 ==> rest == es;
  }

  ghost function DaemonPieces(e: BodyEntry, indent: string): seq<Piece> {
    if P.InDaemon(e) then P.ClausePieces(e, indent) else []
  }

  lemma {:induction false} DaemonStep(out: seq<Piece>, es: seq<BodyEntry>, i: nat, indent: string)
    requires i < |es|
    ensures out + P.ClauseList(P.DaemonClauses(es[i..]), indent)
         == out + DaemonPieces(es[i], indent) + P.ClauseList(P.DaemonClauses(es[i + 1..]), indent)
  {
    assert es[i..][1..] == es[i + 1..];
    var rest := P.DaemonClauses(es[i + 1..]);
    if P.InDaemon(es[i]) {
      assert P.DaemonClauses(es[i..])[1..] == rest;
      Shift(out, P.ClausePieces(es[i], indent), P.ClauseList(rest, indent));
    } else {
      assert P.DaemonClauses(es[i..]) == rest;
      assert out + [] == out;
    }
  }

  /** One bucket per kind of block, filled in one loop, then sorted by name and joined. */
  method Arrange(es: seq<FileEntry>) returns (blocks: seq<FileEntry>)
    ensures blocks == P.Arranged(es)
  {
    var imports, suites, profiles, targets := [], [], [], [];
    var hasPrivate := false;
    for i := 0 to |es|
      invariant imports == OfKind(P.BlockKind, es[..i], 0) && suites == OfKind(P.BlockKind, es[..i], 2)
      invariant profiles == OfKind(P.BlockKind, es[..i], 3) && targets == OfKind(P.BlockKind, es[..i], 4)
      invariant hasPrivate == (PrivateMarker in es[..i])
    {
      assert es[..i + 1][..i] == es[..i];
      match es[i] {
        case Import(_) => imports := imports + [es[i]];
        case PrivateMarker => hasPrivate := true;
        case SuiteBlock(_, _) => suites := suites + [es[i]];
        case ProfileBlock(_, _) => profiles := profiles + [es[i]];
        case TargetBlock(_, _) => targets := targets + [es[i]];
      }
    }
    assert es[..|es|] == es;
    blocks := imports + (if hasPrivate then [PrivateMarker] else [])
      + SortBy(P.NameOf, suites) + SortBy(P.NameOf, profiles) + SortBy(P.NameOf, targets);
  }

  method Format(ast: Bakefile) returns (text: string)
    ensures text == P.Format(ast)
  {
    var w := new Writer();
    w.WriteBakefile(ast);
    assert [] + P.FilePieces(ast) == P.FilePieces(ast);
    text := Render(w.out);
  }
}
