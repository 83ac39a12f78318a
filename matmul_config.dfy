/**
 * The matmul problem generator and the compiler command-line builders of the
 * transform-dialect matmul strategy search: an MLIR fill+matmul function obtained
 * from a text template by repeated `str.replace`, its function name, and the
 * flag lists handed to the IREE compiler.
 */
module MatmulConfig {
  import opened Wrappers
  import opened Text
  import opened Dicts

  // ---------------------------------------------------------------------------
  // The MLIR template and its placeholders
  // ---------------------------------------------------------------------------

  /** The four placeholders of the template. */
  datatype Placeholder = DimM | DimK | DimN | FnName

  function PlaceholderText(p: Placeholder): (t: string)
    ensures |t| >= 4 && t[0] == '$' && t[1] == '{' && '$' !in t[1..]
  {
    match p
    case DimM => "${M}"
    case DimK => "${K}"
    case DimN => "${N}"
    case FnName => "${FN_NAME}"
  }

  /** A template cut into literal text and placeholders. */
  datatype Piece = Lit(text: string) | Hole(p: Placeholder)

  // The literal text of `fill_matmul_f32` between its placeholders, one constant
  // per template line. Each line is written as chunks of at most sixteen
  // characters, and its `...Free` lemma checks the chunks one by one: the solver
  // does not settle `'$' !in` of a long literal in one step.
  const InputTensorText: string :=
    " \n!input_tensor_" + "t = tensor<"

  lemma InputTensorFree()
    ensures '$' !in InputTensorText
  {
    assert '$' !in " \n!input_tensor_";
    assert '$' !in "t = tensor<";
  }

  const WeightTensorText: string :=
    "xf32>\n!weight_te" + "nsor_t = tensor<"

  lemma WeightTensorFree()
    ensures '$' !in WeightTensorText
  {
    assert '$' !in "xf32>\n!weight_te";
    assert '$' !in "nsor_t = tensor<";
  }

  const OutputTensorText: string :=
    "xf32>\n!output_te" + "nsor_t = tensor<"

  lemma OutputTensorFree()
    ensures '$' !in OutputTensorText
  {
    assert '$' !in "xf32>\n!output_te";
    assert '$' !in "nsor_t = tensor<";
  }

  const FuncHeadText: string :=
    "xf32>\nfunc.func " + "@"

  lemma FuncHeadFree()
    ensures '$' !in FuncHeadText
  {
    assert '$' !in "xf32>\nfunc.func ";
    assert '$' !in "@";
  }

  const BodyLine1: string :=
    "(%in: !input_ten" + "sor_t, %wei: !we" + "ight_tensor_t) -" + "> !output_tensor"
    + "_t {\n"

  lemma BodyLine1Free()
    ensures '$' !in BodyLine1
  {
    assert '$' !in "(%in: !input_ten";
    assert '$' !in "sor_t, %wei: !we";
    assert '$' !in "ight_tensor_t) -";
    assert '$' !in "> !output_tensor";
    assert '$' !in "_t {\n";
  }

  const BodyLine2: string :=
    "  %cst_0 = arith" + ".constant 0.0 : " + "f32 \n"

  lemma BodyLine2Free()
    ensures '$' !in BodyLine2
  {
    assert '$' !in "  %cst_0 = arith";
    assert '$' !in ".constant 0.0 : ";
    assert '$' !in "f32 \n";
  }

  const BodyLine3: string :=
    "  %empty = tenso" + "r.empty() : !out" + "put_tensor_t\n"

  lemma BodyLine3Free()
    ensures '$' !in BodyLine3
  {
    assert '$' !in "  %empty = tenso";
    assert '$' !in "r.empty() : !out";
    assert '$' !in "put_tensor_t\n";
  }

  const BodyLine4: string :=
    "  %out = linalg." + "fill ins(%cst_0 " + ": f32) outs(%emp" + "ty : !output_ten"
    + "sor_t) -> !outpu" + "t_tensor_t\n"

  lemma BodyLine4Free()
    ensures '$' !in BodyLine4
  {
    assert '$' !in "  %out = linalg.";
    assert '$' !in "fill ins(%cst_0 ";
    assert '$' !in ": f32) outs(%emp";
    assert '$' !in "ty : !output_ten";
    assert '$' !in "sor_t) -> !outpu";
    assert '$' !in "t_tensor_t\n";
  }

  const BodyLine5: string :=
    "  %res = linalg." + "matmul\n"

  lemma BodyLine5Free()
    ensures '$' !in BodyLine5
  {
    assert '$' !in "  %res = linalg.";
    assert '$' !in "matmul\n";
  }

  const BodyLine6: string :=
    "     ins(%in, %w" + "ei: !input_tenso" + "r_t, !weight_ten" + "sor_t)\n"

  lemma BodyLine6Free()
    ensures '$' !in BodyLine6
  {
    assert '$' !in "     ins(%in, %w";
    assert '$' !in "ei: !input_tenso";
    assert '$' !in "r_t, !weight_ten";
    assert '$' !in "sor_t)\n";
  }

  const BodyLine7: string :=
    "    outs(%out: !" + "output_tensor_t)" + " -> !output_tens" + "or_t\n"

  lemma BodyLine7Free()
    ensures '$' !in BodyLine7
  {
    assert '$' !in "    outs(%out: !";
    assert '$' !in "output_tensor_t)";
    assert '$' !in " -> !output_tens";
    assert '$' !in "or_t\n";
  }

  const BodyLine8: string :=
    "  return %res : " + "!output_tensor_t" + "\n"

  lemma BodyLine8Free()
    ensures '$' !in BodyLine8
  {
    assert '$' !in "  return %res : ";
    assert '$' !in "!output_tensor_t";
    assert '$' !in "\n";
  }

  const BodyLine9: string :=
    "}\n"

  lemma BodyLine9Free()
    ensures '$' !in BodyLine9
  {
    assert '$' !in "}\n";
  }

  const FuncBodyText: string :=
    BodyLine1 + BodyLine2 + BodyLine3 + BodyLine4 + BodyLine5
    + BodyLine6 + BodyLine7 + BodyLine8 + BodyLine9

  lemma FuncBodyFree()
    ensures '$' !in FuncBodyText
  {
    BodyLine1Free();
    BodyLine2Free();
    BodyLine3Free();
    BodyLine4Free();
    BodyLine5Free();
    BodyLine6Free();
    BodyLine7Free();
    BodyLine8Free();
    BodyLine9Free();
  }

  /**
   * The template `fill_matmul_f32` cut at its placeholders: joining the pieces
   * (`Render`) gives the template text, character for character.
   */
  const TemplatePieces: seq<Piece> := TemplateHead + [Hole(FnName), Lit(FuncBodyText)]

  /** The pieces before `${FN_NAME}`. */
  const TemplateHead: seq<Piece> := [
    Lit(InputTensorText), Hole(DimM), Lit("x"), Hole(DimK),
    Lit(WeightTensorText), Hole(DimK), Lit("x"), Hole(DimN),
    Lit(OutputTensorText), Hole(DimM), Lit("x"), Hole(DimN),
    Lit(FuncHeadText)
  ]

  /** The text of one piece, a placeholder written as `${...}`. */
  function Show(x: Piece): string {
    match x
    case Lit(t) => t
    case Hole(p) => PlaceholderText(p)
  }

  /** The text of a sequence of pieces. */
  function Render(ps: seq<Piece>): string
    decreases |ps|
  {
    if ps == [] then "" else Show(ps[0]) + Render(ps[1..])
  }

  /** Python's `fill_matmul_f32` string. */
  const FillMatmulF32: string := Render(TemplatePieces)

  /** No literal piece contains the character `c`. */
  predicate LitsFree(ps: seq<Piece>, c: char) {
    forall i :: 0 <= i < |ps| ==> ps[i].Lit? ==> c !in ps[i].text
  }

  /** The template's literal text has no `$`: every `$` in it starts a placeholder. */
  lemma TemplateLitsFree()
    ensures LitsFree(TemplatePieces, '$')
  {
    InputTensorFree();
    WeightTensorFree();
    OutputTensorFree();
    FuncHeadFree();
    FuncBodyFree();
  }

  /** `${FN_NAME}` is the fourteenth piece of the template. */
  lemma TemplateHasFnName()
    ensures |TemplatePieces| == 15 && TemplatePieces[13] == Hole(FnName)
  {
  }

  // ---------------------------------------------------------------------------
  // Substitution: repeated `str.replace` against direct formatting
  // ---------------------------------------------------------------------------

  /** The values written in place of `${M}`, `${K}`, `${N}` and `${FN_NAME}`. */
  datatype Values = Values(m: string, k: string, n: string, fnName: string)

  function ValueOf(vs: Values, p: Placeholder): string {
    match p
    case DimM => vs.m
    case DimK => vs.k
    case DimN => vs.n
    case FnName => vs.fnName
  }

  /**
   * The reference meaning of filling a template: every placeholder written
   * directly as its value, in one left-to-right pass.
   */
  function Expand(ps: seq<Piece>, vs: Values): string
    decreases |ps|
  {
    if ps == [] then "" else Fill(ps[0], vs) + Expand(ps[1..], vs)
  }

  /** One piece formatted: its literal text, or the value of its placeholder. */
  function Fill(x: Piece, vs: Values): string {
    match x
    case Lit(t) => t
    case Hole(p) => ValueOf(vs, p)
  }

  function SubstPiece(x: Piece, p: Placeholder, v: string): Piece {
    if x == Hole(p) then Lit(v) else x
  }

  /** The pieces after one pass `.replace(PlaceholderText(p), v)`: holes `p` become the literal `v`. */
  function Subst(ps: seq<Piece>, p: Placeholder, v: string): (r: seq<Piece>)
    ensures |r| == |ps| && forall i :: 0 <= i < |ps| ==> r[i] == SubstPiece(ps[i], p, v)
    decreases |ps|
  {
    if ps == [] then [] else [SubstPiece(ps[0], p, v)] + Subst(ps[1..], p, v)
  }

  lemma PlaceholdersDiffer(p: Placeholder, q: Placeholder)
    requires p != q
    ensures PlaceholderText(p)[2] != PlaceholderText(q)[2]
  {
  }

  /**
   * On a template whose literal text has no `$`, one `str.replace` pass of a
   * placeholder is exactly the substitution of that placeholder's holes: literal
   * text and other placeholders are copied, and the inserted value is not rescanned.
   */
  lemma {:induction false} ReplaceAllRender(ps: seq<Piece>, p: Placeholder, v: string)
    requires LitsFree(ps, '$')
    ensures ReplaceAll(Render(ps), PlaceholderText(p), v) == Render(Subst(ps, p, v))
    decreases |ps|
  {
    if ps != [] {
      var pat := PlaceholderText(p);
      var rest := Render(ps[1..]);
      assert LitsFree(ps[1..], '$') by {
        forall i | 0 <= i < |ps[1..]| ensures ps[1..][i].Lit? ==> '$' !in ps[1..][i].text {
          assert ps[1..][i] == ps[i + 1];
        }
      }
      ReplaceAllRender(ps[1..], p, v);
      var r := Subst(ps, p, v);
      assert r[1..] == Subst(ps[1..], p, v);
      assert Render(r) == Show(r[0]) + Render(r[1..]);
      match ps[0]
      case Lit(t) =>
        ReplaceAllSkips(t, rest, pat, v);
      case Hole(q) =>
        if q == p {
          ReplaceAllAtFront(rest, pat, v);
        } else {
          PlaceholdersDiffer(p, q);
          ReplaceAllSkipsOther(PlaceholderText(q), rest, pat, v, 2);
        }
    }
  }

  /** All four placeholders substituted. */
  function SubstAll(ps: seq<Piece>, vs: Values): seq<Piece> {
    Subst(Subst(Subst(Subst(ps, DimM, vs.m), DimK, vs.k), DimN, vs.n), FnName, vs.fnName)
  }

  /** Substitution of a value without `c` keeps the literal text free of `c`. */
  lemma SubstKeepsFree(ps: seq<Piece>, p: Placeholder, v: string, c: char)
    requires LitsFree(ps, c) && c !in v
    ensures LitsFree(Subst(ps, p, v), c)
  {
  }

  /** Once all four placeholders are substituted, the text is the direct formatting. */
  lemma {:induction false} SubstAllExpands(ps: seq<Piece>, vs: Values)
    ensures Render(SubstAll(ps, vs)) == Expand(ps, vs)
    decreases |ps|
  {
    if ps != [] {
      SubstAllExpands(ps[1..], vs);
      var r := SubstAll(ps, vs);
      assert r[1..] == SubstAll(ps[1..], vs);
      assert Render(r) == Show(r[0]) + Render(r[1..]);
    }
  }

  /** The four `str.replace` passes, in the source's order M, K, N, FN_NAME. */
  function FillTemplate(template: string, vs: Values): (r: string)
    ensures '$' !in template ==> r == template
  {
    ReplaceAll(ReplaceAll(ReplaceAll(ReplaceAll(
      template, "${M}", vs.m), "${K}", vs.k), "${N}", vs.n), "${FN_NAME}", vs.fnName)
  }

  /** A template in which no placeholder occurs is returned unchanged. */
  lemma FillTemplateWithoutPlaceholders(template: string, vs: Values)
    requires forall p :: !Occurs(PlaceholderText(p), template)
    ensures FillTemplate(template, vs) == template
  {
    assert PlaceholderText(DimM) == "${M}" && PlaceholderText(DimK) == "${K}";
    assert PlaceholderText(DimN) == "${N}" && PlaceholderText(FnName) == "${FN_NAME}";
    ReplaceAllAbsent(template, "${M}", vs.m);
    ReplaceAllAbsent(template, "${K}", vs.k);
    ReplaceAllAbsent(template, "${N}", vs.n);
    ReplaceAllAbsent(template, "${FN_NAME}", vs.fnName);
  }

  /**
   * When neither the literal text nor the dimension values contain a `$`,
   * filling a template by repeated replace-all is its direct formatting, whatever
   * the function name is.
   */
  lemma FillTemplateExpands(p0: seq<Piece>, vs: Values)
    requires LitsFree(p0, '$') && '$' !in vs.m && '$' !in vs.k && '$' !in vs.n
    ensures FillTemplate(Render(p0), vs) == Expand(p0, vs)
  {
    ReplaceAllRender(p0, DimM, vs.m);
    var p1 := Subst(p0, DimM, vs.m);
    SubstKeepsFree(p0, DimM, vs.m, '$');
    ReplaceAllRender(p1, DimK, vs.k);
    var p2 := Subst(p1, DimK, vs.k);
    SubstKeepsFree(p1, DimK, vs.k, '$');
    ReplaceAllRender(p2, DimN, vs.n);
    var p3 := Subst(p2, DimN, vs.n);
    SubstKeepsFree(p2, DimN, vs.n, '$');
    ReplaceAllRender(p3, FnName, vs.fnName);
    SubstAllExpands(p0, vs);
  }

  /** A character of the filled text comes from the literal text or from a value. */
  lemma {:induction false} ExpandCharacters(ps: seq<Piece>, vs: Values, c: char)
    requires LitsFree(ps, c) && c !in vs.m && c !in vs.k && c !in vs.n
    ensures c in Expand(ps, vs) ==> c in vs.fnName
    decreases |ps|
  {
    if ps != [] {
      assert LitsFree(ps[1..], c) by {
        forall i | 0 <= i < |ps[1..]| ensures ps[1..][i].Lit? ==> c !in ps[1..][i].text {
          assert ps[1..][i] == ps[i + 1];
        }
      }
      ExpandCharacters(ps[1..], vs, c);
    }
  }

  /** Every character of a value whose placeholder occurs in the template is in the filled text. */
  lemma {:induction false} ExpandContainsValue(ps: seq<Piece>, vs: Values, i: nat, c: char)
    requires i < |ps| && ps[i].Hole? && c in ValueOf(vs, ps[i].p)
    ensures c in Expand(ps, vs)
    decreases |ps|
  {
    if i > 0 {
      assert ps[1..][i - 1] == ps[i];
      ExpandContainsValue(ps[1..], vs, i - 1, c);
    }
  }

  lemma {:induction false} ExpandAppend(p: seq<Piece>, q: seq<Piece>, vs: Values)
    ensures Expand(p + q, vs) == Expand(p, vs) + Expand(q, vs)
    decreases |p|
  {
    if p != [] {
      assert (p + q)[0] == p[0];
      assert (p + q)[1..] == p[1..] + q;
      ExpandAppend(p[1..], q, vs);
    } else {
      assert p + q == q;
    }
  }

  /** Without a `${FN_NAME}` hole, a character missing from the literals and from M, K, N is missing from the text. */
  lemma {:induction false} ExpandFreeWithoutName(ps: seq<Piece>, vs: Values, c: char)
    requires LitsFree(ps, c) && c !in vs.m && c !in vs.k && c !in vs.n
    requires forall i :: 0 <= i < |ps| ==> ps[i] != Hole(FnName)
    ensures c !in Expand(ps, vs)
    decreases |ps|
  {
    if ps != [] {
      assert forall i :: 0 <= i < |ps[1..]| ==> ps[1..][i] == ps[i + 1];
      ExpandFreeWithoutName(ps[1..], vs, c);
    }
  }

  /** No placeholder text contains `(`. */
  lemma PlaceholderWithoutParen(p: Placeholder)
    ensures '(' !in PlaceholderText(p)
  {
  }

  /** The text after `${FN_NAME}` starts with `(`. */
  lemma FuncBodyStart()
    ensures FuncBodyText != [] && FuncBodyText[0] == '('
  {
    assert BodyLine1[0] == '(';
  }

  /** Pieces, then `${FN_NAME}`, then a literal: the formatted pieces, the name, the literal. */
  lemma ExpandHeadNameBody(head: seq<Piece>, body: string, vs: Values)
    ensures Expand(head + [Hole(FnName), Lit(body)], vs) == Expand(head, vs) + vs.fnName + body
  {
    var tail := [Hole(FnName), Lit(body)];
    ExpandAppend(head, tail, vs);
    assert tail[1..] == [Lit(body)];
    assert tail[1..][1..] == [];
    assert Expand(tail[1..], vs) == body;
  }

  /** The literal text before `${FN_NAME}` has no `$`, and `${FN_NAME}` is not among those pieces. */
  lemma TemplateHeadFree()
    ensures LitsFree(TemplateHead, '$')
    ensures forall i :: 0 <= i < |TemplateHead| ==> TemplateHead[i] != Hole(FnName)
  {
    InputTensorFree();
    WeightTensorFree();
    OutputTensorFree();
    FuncHeadFree();
  }

  /**
   * The filled template is the text before `${FN_NAME}`, which has no `$`, then
   * the name, then the rest of the template.
   */
  lemma ExpandAroundName(vs: Values)
    requires '$' !in vs.m && '$' !in vs.k && '$' !in vs.n
    ensures '$' !in Expand(TemplateHead, vs)
    ensures Expand(TemplatePieces, vs) == Expand(TemplateHead, vs) + vs.fnName + FuncBodyText
  {
    ExpandHeadNameBody(TemplateHead, FuncBodyText, vs);
    TemplateHeadFree();
    ExpandFreeWithoutName(TemplateHead, vs, '$');
  }

  /**
   * A placeholder occurs in `before + name + body` exactly when it occurs in the
   * name, if neither side has a `$` and `body` starts with `(`.
   */
  lemma PlaceholderBetween(p: Placeholder, before: string, name: string, body: string)
    requires '$' !in before && '$' !in body && body != [] && body[0] == '('
    ensures Occurs(PlaceholderText(p), before + name + body) <==> Occurs(PlaceholderText(p), name)
  {
    var t := PlaceholderText(p);
    PlaceholderWithoutParen(p);
    if Occurs(t, before + name + body) {
      OccursInMiddle(t, before, name, body);
    }
    if Occurs(t, name) {
      OccursRight(t, before, name);
      OccursLeft(t, before + name, body);
    }
  }

  // ---------------------------------------------------------------------------
  // make_fill_matmul_f32_problem
  // ---------------------------------------------------------------------------

  /** `mm_{M}_{N}_{K}`: the dimensions in the order M, N, K. */
  function BaseName(m: int, n: int, k: int): (r: string)
    ensures StartsWith(r, "mm_") && ',' !in r && '$' !in r
  {
    IntToStringChars(m);
    IntToStringChars(n);
    IntToStringChars(k);
    "mm_" + IntToString(m) + "_" + IntToString(n) + "_" + IntToString(k)
  }

  /** The `f"{k}_{v}"` texts of the configuration entries, in iteration order. */
  function EntryTexts(cfg: seq<(string, string)>): (r: seq<string>)
    ensures |r| == |cfg| && forall i :: 0 <= i < |cfg| ==> r[i] == cfg[i].0 + "_" + cfg[i].1
    decreases |cfg|
  {
    if cfg == [] then [] else [cfg[0].0 + "_" + cfg[0].1] + EntryTexts(cfg[1..])
  }

  /** The name before its commas are replaced. */
  function RawName(m: int, n: int, k: int, tdConfig: Option<Dict<string>>): (r: string)
    ensures StartsWith(r, BaseName(m, n, k))
    ensures ',' in r ==> tdConfig.Some?
  {
    if tdConfig.None? then BaseName(m, n, k)
    else BaseName(m, n, k) + "_" + Join("_", EntryTexts(tdConfig.value))
  }

  /**
   * The generated function's name. The configuration's values are given as their
   * `str()` text (a list value prints with commas, which are then replaced).
   */
  function FunctionName(m: int, n: int, k: int, tdConfig: Option<Dict<string>>): (r: string)
    ensures ',' !in r
  {
    ReplaceCharRemoves(RawName(m, n, k, tdConfig), ',', '_');
    ReplaceAll(RawName(m, n, k, tdConfig), ",", "_")
  }

  lemma IntToStringChars(i: int)
    ensures ',' !in IntToString(i) && '$' !in IntToString(i)
  {
    var r := IntToString(i);
    forall k | 0 <= k < |r| ensures r[k] != ',' && r[k] != '$' {
      assert IsDigit(r[k]) || r[k] == '-';
    }
  }

  /** Without a configuration the name is exactly `"mm_" + str(M) + "_" + str(N) + "_" + str(K)`. */
  lemma FunctionNameWithoutConfig(m: int, n: int, k: int)
    ensures FunctionName(m, n, k, None)
      == "mm_" + IntToString(m) + "_" + IntToString(n) + "_" + IntToString(k)
  {
    IntToStringChars(m);
    IntToStringChars(n);
    IntToStringChars(k);
    ReplaceCharAbsent(BaseName(m, n, k), ',', '_');
  }

  /**
   * With a configuration, the name is the base name, `_`, and the entries
   * `k_v` joined by `_` in iteration order, with every comma turned into `_` and
   * every other character kept in place.
   */
  lemma FunctionNameWithConfig(m: int, n: int, k: int, cfg: Dict<string>)
    ensures var raw := BaseName(m, n, k) + "_" + Join("_", EntryTexts(cfg));
      var r := FunctionName(m, n, k, Some(cfg));
      |r| == |raw| && forall i :: 0 <= i < |raw| ==> r[i] == if raw[i] == ',' then '_' else raw[i]
  {
    ReplaceCharPointwise(RawName(m, n, k, Some(cfg)), ',', '_');
  }

  /** Replacing commas introduces no `$`. */
  lemma DollarFromRawName(m: int, n: int, k: int, tdConfig: Option<Dict<string>>)
    requires '$' in FunctionName(m, n, k, tdConfig)
    ensures '$' in RawName(m, n, k, tdConfig)
  {
    var raw := RawName(m, n, k, tdConfig);
    ReplaceCharPointwise(raw, ',', '_');
    var r := FunctionName(m, n, k, tdConfig);
    var j :| 0 <= j < |r| && r[j] == '$';
    assert raw[j] == '$';
  }

  /** A `$` in the name can only come from a configuration key or value. */
  lemma FunctionNameDollar(m: int, n: int, k: int, tdConfig: Option<Dict<string>>)
    requires '$' in FunctionName(m, n, k, tdConfig)
    ensures tdConfig.Some?
    ensures exists i :: 0 <= i < |tdConfig.value| && ('$' in tdConfig.value[i].0 || '$' in tdConfig.value[i].1)
  {
    DollarFromRawName(m, n, k, tdConfig);
    var cfg := tdConfig.value;
    var base := BaseName(m, n, k);
    var joined := Join("_", EntryTexts(cfg));
    assert RawName(m, n, k, tdConfig) == (base + "_") + joined;
    assert '$' !in base + "_";
    assert '$' in joined;
    JoinCharacters("_", EntryTexts(cfg), '$');
    var i :| 0 <= i < |cfg| && '$' in EntryTexts(cfg)[i];
    assert EntryTexts(cfg)[i] == (cfg[i].0 + "_") + cfg[i].1;
  }

  /** `make_fill_matmul_f32_problem(M, N, K, td_config)`: the MLIR text and the function name. */
  function MakeFillMatmulF32Problem(m: int, n: int, k: int, tdConfig: Option<Dict<string>>)
    : (r: (string, string))
    ensures ',' !in r.1
  {
    var fnName := FunctionName(m, n, k, tdConfig);
    (FillTemplate(FillMatmulF32, Values(IntToString(m), IntToString(k), IntToString(n), fnName)), fnName)
  }

  /**
   * The problem text is the template with `${M}`, `${K}`, `${N}` written as the
   * decimal dimensions and `${FN_NAME}` as the returned name.
   */
  lemma MakeFillMatmulF32ProblemFormats(m: int, n: int, k: int, tdConfig: Option<Dict<string>>)
    ensures var r := MakeFillMatmulF32Problem(m, n, k, tdConfig);
      r.0 == Expand(TemplatePieces, Values(IntToString(m), IntToString(k), IntToString(n), r.1))
  {
    IntToStringChars(m);
    IntToStringChars(n);
    IntToStringChars(k);
    var r := MakeFillMatmulF32Problem(m, n, k, tdConfig);
    TemplateLitsFree();
    FillTemplateExpands(TemplatePieces, Values(IntToString(m), IntToString(k), IntToString(n), r.1));
  }

  /** A placeholder occurs in the filled template exactly when it occurs in the name written into it. */
  lemma PlaceholderFromName(vs: Values, p: Placeholder)
    requires '$' !in vs.m && '$' !in vs.k && '$' !in vs.n
    ensures Occurs(PlaceholderText(p), Expand(TemplatePieces, vs)) <==> Occurs(PlaceholderText(p), vs.fnName)
  {
    ExpandAroundName(vs);
    FuncBodyStart();
    FuncBodyFree();
    PlaceholderBetween(p, Expand(TemplateHead, vs), vs.fnName, FuncBodyText);
  }

  /**
   * The problem text contains a `$` exactly when the name does, and any of
   * `${M}`, `${K}`, `${N}`, `${FN_NAME}` exactly when the name does; so a name
   * without a `$` leaves no placeholder in the text.
   */
  lemma MakeFillMatmulF32ProblemNoPlaceholder(m: int, n: int, k: int, tdConfig: Option<Dict<string>>)
    ensures var r := MakeFillMatmulF32Problem(m, n, k, tdConfig);
      ('$' in r.0 <==> '$' in r.1)
      && (forall p :: Occurs(PlaceholderText(p), r.0) <==> Occurs(PlaceholderText(p), r.1))
      && ('$' !in r.1 ==> forall p :: !Occurs(PlaceholderText(p), r.0))
  {
    var r := MakeFillMatmulF32Problem(m, n, k, tdConfig);
    var vs := Values(IntToString(m), IntToString(k), IntToString(n), r.1);
    MakeFillMatmulF32ProblemFormats(m, n, k, tdConfig);
    IntToStringChars(m);
    IntToStringChars(n);
    IntToStringChars(k);
    TemplateLitsFree();
    ExpandCharacters(TemplatePieces, vs, '$');
    if '$' in r.1 {
      TemplateHasFnName();
      ExpandContainsValue(TemplatePieces, vs, 13, '$');
    }
    forall p ensures Occurs(PlaceholderText(p), r.0) <==> Occurs(PlaceholderText(p), r.1) {
      PlaceholderFromName(vs, p);
    }
    forall p | '$' !in r.1 ensures !Occurs(PlaceholderText(p), r.0) {
      if Occurs(PlaceholderText(p), r.0) {
        OccursCharacters(PlaceholderText(p), r.0);
      }
    }
  }

  /** A name free of `$` when the configuration is: the text then has no placeholder left. */
  lemma NoPlaceholderForPlainConfig(m: int, n: int, k: int, tdConfig: Option<Dict<string>>)
    requires tdConfig.Some? ==> forall i :: 0 <= i < |tdConfig.value| ==>
      '$' !in tdConfig.value[i].0 && '$' !in tdConfig.value[i].1
    ensures forall p :: !Occurs(PlaceholderText(p), MakeFillMatmulF32Problem(m, n, k, tdConfig).0)
  {
    if '$' in FunctionName(m, n, k, tdConfig) {
      FunctionNameDollar(m, n, k, tdConfig);
    }
    MakeFillMatmulF32ProblemNoPlaceholder(m, n, k, tdConfig);
  }

  // ---------------------------------------------------------------------------
  // Compiler command lines
  // ---------------------------------------------------------------------------

  const ReproFlags: seq<string> := [
    "--debug-only=transform-dialect-save-repro",
    "--mlir-disable-threading"
  ]

  /** `append_td_repro_options(options, td_repro)`. */
  function AppendTdReproOptions(options: seq<string>, tdRepro: bool): (r: seq<string>)
    ensures |r| == |options| + (if tdRepro then 2 else 0)
    ensures r[..|options|] == options
    ensures tdRepro ==> r[|options|..] == ["--debug-only=transform-dialect-save-repro", "--mlir-disable-threading"]
  {
    if tdRepro then options + ReproFlags else options
  }

  /** The flags every IREE compilation of the search starts with. */
  const CommonFlags: seq<string> := [
    "--iree-hal-benchmark-dispatch-repeat-count=2",
    "--iree-stream-resource-index-bits=64",
    "--iree-vm-target-index-bits=64",
    "--iree-hal-cuda-llvm-target-arch=sm_80"
  ]

  /** `make_iree_baseline_options(td_repro)`. */
  function MakeIreeBaselineOptions(tdRepro: bool): (r: seq<string>)
    ensures |r| == if tdRepro then 7 else 5
    ensures r[..4] == CommonFlags
    ensures r[..5] == [
      "--iree-hal-benchmark-dispatch-repeat-count=2",
      "--iree-stream-resource-index-bits=64",
      "--iree-vm-target-index-bits=64",
      "--iree-hal-cuda-llvm-target-arch=sm_80",
      "--iree-codegen-llvmgpu-enable-transform-dialect-jit=false"
    ]
    ensures tdRepro ==> r[5..] == ReproFlags
  {
    AppendTdReproOptions(CommonFlags + ["--iree-codegen-llvmgpu-enable-transform-dialect-jit=false"], tdRepro)
  }

  /** Python raised `KeyError(key)`. */
  datatype KeyError = KeyError(key: string)

  /** The configuration keys read by `make_iree_td_options`, in the order it reads them. */
  const StrategyKeys: seq<string> := ["blk", "tds", "wps", "p", "r", "acp", "mma"]

  /** The flag each of `StrategyKeys` is passed in. */
  const StrategyFlags: seq<string> := [
    "--td-matmul-strategy-blk-sizes=",
    "--td-matmul-strategy-num-threads=",
    "--td-matmul-strategy-num-warps=",
    "--td-matmul-strategy-pipeline-depth=",
    "--td-matmul-strategy-reduc-size=",
    "--td-matmul-strategy-use-async-copies=",
    "--td-matmul-strategy-use-mma-sync="
  ]

  /** `key` is `keys[j]`, the first of `keys` missing from `config`. */
  predicate FirstMissingAt(config: Dict<string>, keys: seq<string>, key: string, j: int) {
    0 <= j < |keys| && keys[j] == key && !HasKey(config, key)
    && forall i :: 0 <= i < j ==> HasKey(config, keys[i])
  }

  predicate FirstMissing(config: Dict<string>, keys: seq<string>, key: string) {
    exists j :: 0 <= j < |keys| && FirstMissingAt(config, keys, key, j)
  }

  /** The first key missing after a present first key is the first one missing overall. */
  lemma FirstMissingShift(config: Dict<string>, keys: seq<string>, key: string)
    requires keys != [] && HasKey(config, keys[0]) && FirstMissing(config, keys[1..], key)
    ensures FirstMissing(config, keys, key)
  {
    var j :| 0 <= j < |keys[1..]| && FirstMissingAt(config, keys[1..], key, j);
    assert keys[1..][j] == keys[j + 1];
    forall i | 0 <= i < j + 1 ensures HasKey(config, keys[i]) {
      if i > 0 { assert keys[i] == keys[1..][i - 1]; }
    }
    assert FirstMissingAt(config, keys, key, j + 1);
  }

  /**
   * The f-strings `f"{flag}{config[key]}"` evaluated left to right: the first key
   * missing from the configuration raises `KeyError`.
   */
  function FormatFlags(config: Dict<string>, flags: seq<string>, keys: seq<string>)
    : (r: Result<seq<string>, KeyError>)
    requires |flags| == |keys|
    ensures r.Success? <==> forall j :: 0 <= j < |keys| ==> HasKey(config, keys[j])
    ensures r.Success? ==> |r.value| == |keys| && forall j :: 0 <= j < |keys| ==>
      r.value[j] == flags[j] + Get(config, keys[j]).value
    ensures r.Failure? ==> FirstMissing(config, keys, r.error.key)
    decreases |keys|
  {
    if keys == [] then Success([])
    else match Get(config, keys[0])
      case None =>
        assert FirstMissingAt(config, keys, keys[0], 0);
        Failure(KeyError(keys[0]))
      case Some(v) =>
        var rest := FormatFlags(config, flags[1..], keys[1..]);
        if rest.Failure? then
          FirstMissingShift(config, keys, rest.error.key);
          Failure(rest.error)
        else
          assert forall j :: 1 <= j < |keys| ==> keys[j] == keys[1..][j - 1];
          Success([flags[0] + v] + rest.value)
  }

  /** Where the parts of a concatenation `a + b + c` sit in a list that starts with it. */
  lemma ThreeParts<T>(a: seq<T>, b: seq<T>, c: seq<T>, o: seq<T>)
    requires |a + b + c| <= |o| && o[..|a + b + c|] == a + b + c
    ensures o[..|a|] == a && o[|a| + |b|..|a| + |b| + |c|] == c
    ensures forall j :: 0 <= j < |b| ==> o[|a| + j] == b[j]
  {
    var n := |a + b + c|;
    assert forall j :: 0 <= j < n ==> o[j] == (a + b + c)[j];
    assert o[..|a|] == (a + b + c)[..|a|];
    assert o[|a| + |b|..|a| + |b| + |c|] == (a + b + c)[|a| + |b|..n];
  }

  const TdTailFlags: seq<string> := [
    "--iree-codegen-llvmgpu-enable-transform-dialect-aligned-matmul",
    "--iree-flow-enable-pad-handling",
    "--iree-codegen-llvmgpu-enable-transform-dialect-pad-strategy"
  ]

  /**
   * `make_iree_td_options(config, td_repro, benchmark)`. The `benchmark` argument
   * is not used by the source.
   */
  function MakeIreeTdOptions(config: Dict<string>, tdRepro: bool, benchmark: bool)
    : (r: Result<seq<string>, KeyError>)
    ensures r.Success? <==> forall j :: 0 <= j < 7 ==> HasKey(config, StrategyKeys[j])
    ensures r.Failure? ==> FirstMissing(config, StrategyKeys, r.error.key)
    ensures r.Success? ==> (
      var o := r.value;
      && |o| == (if tdRepro then 16 else 14)
      && o[..4] == CommonFlags
      && (forall j :: 0 <= j < 7 ==> o[4 + j] == StrategyFlags[j] + Get(config, StrategyKeys[j]).value)
      && o[11..14] == TdTailFlags
      && (tdRepro ==> o[14..] == ReproFlags))
  {
    match FormatFlags(config, StrategyFlags, StrategyKeys)
    case Failure(e) => Failure(e)
    case Success(strategy) =>
      var o := AppendTdReproOptions(CommonFlags + strategy + TdTailFlags, tdRepro);
      ThreeParts(CommonFlags, strategy, TdTailFlags, o);
      Success(o)
  }

  /** The benchmark flag has no effect on the options. */
  lemma MakeIreeTdOptionsIgnoresBenchmark(config: Dict<string>, tdRepro: bool)
    ensures MakeIreeTdOptions(config, tdRepro, true) == MakeIreeTdOptions(config, tdRepro, false)
  {
  }

  /** `append_td_graph_script(l, filename)`. */
  function AppendTdGraphScript(l: seq<string>, filename: Option<string>): (r: seq<string>)
    ensures filename.None? ==> r == l
    ensures filename.Some? ==> (
      && |r| == |l| + 1 && r[..|l|] == l
      && r[|l|] == "--iree-flow-dispatch-use-transform-dialect=" + filename.value)
  {
    if filename.Some? then l + ["--iree-flow-dispatch-use-transform-dialect=" + filename.value] else l
  }
}
