/**
 * The display names of bot.py's report: the fixed translation tables for
 * test functions and test files, and the name derived from a file path when
 * the table has no entry.
 */
module BotNaming {
  import opened Text

  /** `test_name_mapping`. */
  const TestNameMapping: map<string, string> := map[
    "test_valid_login" := "Login del Agente exitoso",
    "test_logout_agente" := "Cierre de sesión del Agente",
    "test_agent_status_timer" := "Contador de estado Online",
    "test_agent_status_break" := "Activacion de estado descanso",
    "test_receive_email" := "recibo de mail -agente",
    "test_chat_closure" := "Cierre chat mail",
    "test_outbound_bienvenida_rapida" := "bienvenida_rapida",
    "test_outbound_document" := "qa_documento",
    "test_outbound_image" := "qa_imagen",
    "test_outbound_document_url" := "qa_documento_url",
    "test_outbound_image_url" := "qa_imagen_url",
    "test_outbound_video_url" := "qa_video_url",
    "test_outbound_qa_header_boton" := "qa_header_boton",
    "test_outbound_qa_asterisco_inicio" := "qa_asterisco_inicio",
    "test_outbound_qa_plantilla_portugues" := "qa_plantilla_portugues",
    "test_outbound_qa_plantila_ingles" := "qa_plantila_ingles",
    "test_outbound_qa_boton_llamar" := "qa_boton_llamar"
  ]

  /** `file_name_mapping`. */
  const FileNameMapping: map<string, string> := map[
    "tests/agente/test_inbound_email.py" := "Chat - Mail",
    "tests/agente/test_outbound_agente.py" := "Outbound - Envio HSM",
    "tests/agente/test_agent_status.py" := "Agente"
  ]

  /** A test's `short_name`: its translation when the table has one, else its own name. */
  function ShortName(testName: string): (r: string)
    ensures testName in TestNameMapping ==> r == TestNameMapping[testName]
    ensures testName !in TestNameMapping ==> r == testName
  {
    if testName in TestNameMapping then TestNameMapping[testName] else testName
  }

  /**
   * The friendly name of a test file without a table entry: last path
   * segment, every "test_" and ".py" removed, the text before the first "_",
   * capitalised. It is a single word: no "/" and no "_" survive, and it does
   * not start with a lower-case letter.
   */
  function DerivedFileName(path: string): (r: string)
    ensures '/' !in r && '_' !in r
    ensures |r| > 0 ==> !IsLower(r[0])
  {
    var base := Last(Split(path, "/"));
    var stem := Replace(Replace(base, "test_", ""), ".py", "");
    var head := if '_' in stem then Split(stem, "_")[0] else stem;
    assert '/' !in stem by {
      assert '/' !in base;
      assert '/' !in Replace(base, "test_", "");
    }
    assert '/' !in head && '_' !in head;
    Capitalize(head)
  }

  /**
   * The naming rule for any file `<d1>/<d2>/test_<w>_<rest>.py` whose name
   * holds no further "test_" and ends in its only ".py": the folder title is
   * the first word `w`, capitalised.
   */
  lemma DerivedFileNameIsFirstWord(d1: string, d2: string, w: string, rest: string)
    requires '/' !in d1 && '/' !in d2 && '/' !in w && '/' !in rest && '_' !in w
    requires var name := w + "_" + rest + ".py";
      NoMatchBefore(name, "test_", |name|) && NoMatchBefore(name, ".py", |name| - 3)
    ensures DerivedFileName(d1 + "/" + d2 + "/" + "test_" + w + "_" + rest + ".py") == Capitalize(w)
  {
    var stem := w + "_" + rest;
    var name := stem + ".py";
    var base := "test_" + name;
    assert d1 + "/" + d2 + "/" + "test_" + w + "_" + rest + ".py" == d1 + "/" + d2 + "/" + base;
    SuffixPiecesHaveNoSlash();
    assert '/' !in base;
    LastSegment(d1, d2, base);
    ReplacePrefix("test_", name, "");
    assert name + [] == name;
    ReplaceSkipsPrefix(name, [], "test_", "");
    assert Replace(base, "test_", "") == name;
    assert |name| - 3 == |stem|;
    assert NoMatchBefore(stem + ".py", ".py", |stem|);
    ReplaceSkipsPrefix(stem, ".py", ".py", "");
    ReplacePrefix(".py", [], "");
    assert ".py" + [] == ".py";
    assert Replace(name, ".py", "") == stem;
    assert stem[|w|] == '_';
    SplitAfterFirst(w, "_", rest);
  }

  lemma SuffixPiecesHaveNoSlash()
    ensures '/' !in "test_" && '/' !in "_" && '/' !in ".py"
  {
    forall i | 0 <= i < 5 ensures "test_"[i] != '/' {}
    forall i | 0 <= i < 3 ensures ".py"[i] != '/' {}
  }

  /** The folder title of a test file in the report. */
  function DisplayName(path: string): (r: string)
    ensures path in FileNameMapping ==> r == FileNameMapping[path]
    ensures path !in FileNameMapping ==> r == DerivedFileName(path)
  {
    if path in FileNameMapping && FileNameMapping[path] != "" then FileNameMapping[path]
    else DerivedFileName(path)
  }

  /** The last segment of a three-segment path. */
  lemma LastSegment(d1: string, d2: string, base: string)
    requires '/' !in d1 && '/' !in d2 && '/' !in base
    ensures Last(Split(d1 + "/" + d2 + "/" + base, "/")) == base
  {
    SplitWithoutSeparator(base, "/");
    SplitAfterFirst(d2, "/", base);
    assert d1 + "/" + d2 + "/" + base == d1 + "/" + (d2 + "/" + base);
    SplitAfterFirst(d1, "/", d2 + "/" + base);
  }

  lemma LoginBase()
    ensures Last(Split("tests/agente/test_login_agente.py", "/")) == "test_login_agente.py"
  {
    var p := "tests/agente/test_login_agente.py";
    var base := "test_login_agente.py";
    assert '/' !in base by { forall i | 0 <= i < |base| ensures base[i] != '/' {} }
    var q := "tests" + "/" + "agente" + "/" + base;
    assert p == q by {
      assert |p| == |q|;
      forall i | 0 <= i < |p| ensures p[i] == q[i] {}
    }
    LastSegment("tests", "agente", base);
  }

  lemma LoginDropPrefix()
    ensures Replace("test_login_agente.py", "test_", "") == "login_agente.py"
  {
    var base := "test_login_agente.py";
    var rest := "login_agente.py";
    assert base == "test_" + rest by {
      var q := "test_" + rest;
      assert |base| == |q|;
      forall i | 0 <= i < |base| ensures base[i] == q[i] {}
    }
    assert 's' !in rest by { forall i | 0 <= i < |rest| ensures rest[i] != 's' {} }
    ReplaceAtStart("test_", rest, "", 's');
  }

  lemma LoginDropSuffix()
    ensures Replace("login_agente.py", ".py", "") == "login_agente"
  {
    var rest := "login_agente.py";
    var stem := "login_agente";
    assert rest == stem + ".py" by {
      var q := stem + ".py";
      assert |rest| == |q|;
      forall i | 0 <= i < |rest| ensures rest[i] == q[i] {}
    }
    assert '.' !in stem by { forall i | 0 <= i < |stem| ensures stem[i] != '.' {} }
    ReplaceAtEnd(stem, ".py", "");
  }

  lemma LoginStem()
    ensures Replace(Replace("test_login_agente.py", "test_", ""), ".py", "") == "login_agente"
  {
    LoginDropPrefix();
    LoginDropSuffix();
  }

  lemma LoginHead()
    ensures '_' in "login_agente"
    ensures Split("login_agente", "_")[0] == "login"
  {
    var stem := "login_agente";
    assert stem == "login" + "_" + "agente" by {
      var q := "login" + "_" + "agente";
      assert |stem| == |q|;
      forall i | 0 <= i < |stem| ensures stem[i] == q[i] {}
    }
    assert stem[5] == '_';
    assert '_' !in "login" by { forall i | 0 <= i < 5 ensures "login"[i] != '_' {} }
    SplitAfterFirst("login", "_", "agente");
  }

  lemma LoginCapitalized()
    ensures Capitalize("login") == "Login"
  {
    var s := "login";
    var r := Capitalize(s);
    assert r == [UpperChar(s[0])] + Lower(s[1..]);
    assert |r| == 5;
    forall i | 0 <= i < 5 ensures r[i] == "Login"[i] {}
  }

  /** The worked example of the naming rule: a login test file is shown as "Login". */
  lemma LoginFileName()
    ensures DisplayName("tests/agente/test_login_agente.py") == "Login"
  {
    LoginBase();
    LoginStem();
    LoginHead();
    LoginCapitalized();
    assert "tests/agente/test_login_agente.py" !in FileNameMapping;
  }
}
