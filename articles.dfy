/**
 * The FAQ screen of app/tabs/artigos.tsx: the text shown for an article, the category chips
 * built from the loaded articles, and the filter that narrows the list by category and by a
 * case-insensitive search text.
 */
module Articles {
  import opened Wrappers
  import opened Strings

  /** `FaqArticle`; the content may be missing in what the service returns. */
  datatype Article = Article(id: string, title: string, category: string, content: Option<string>, tags: Option<seq<string>>)

  const DEFAULT_CONTENT: string := "Estamos atualizando este artigo. Envie detalhes do erro para que possamos ajudar."

  /** `fallbackContentByCategory`. */
  const FALLBACK_CONTENT: map<string, string> := map[
    "Rede" :=
      "Passos rápidos para voltar a navegar:\n"
      + "1) Confirme se o Wi-Fi ou cabo estão conectados e desative o modo avião.\n"
      + "2) Reinicie o roteador (se for home office) e o próprio dispositivo.\n"
      + "3) Esqueça a rede corporativa e reconecte com o usuário correto.\n"
      + "4) Desative VPN temporariamente e teste outra rede para comparação.\n"
      + "5) Se continuar sem internet, anote SSID, mensagem de erro e horário e abra um chamado.",
    "Acesso" :=
      "Dicas para recuperar acesso:\n"
      + "1) Tente redefinir a senha pelo Ctrl+Alt+Del (Windows) conectado na rede ou VPN.\n"
      + "2) Siga a política: mínimo 8 caracteres com maiúsculas, minúsculas, número e símbolo.\n"
      + "3) Após alterar, bloqueie e desbloqueie a sessão para replicar no domínio.\n"
      + "4) Se a conta estiver bloqueada, aguarde 15 minutos e tente novamente.\n"
      + "5) Persistindo, registre um chamado com print do erro e horário da tentativa.",
    "Software" :=
      "Para resolver lentidão ou travamentos:\n"
      + "1) Reinicie o equipamento e feche apps pesados no Gerenciador de Tarefas.\n"
      + "2) Verifique uso de CPU, memória e disco; encerre processos que estejam em 100%.\n"
      + "3) Desative inicialização de apps não essenciais e limpe arquivos temporários.\n"
      + "4) Conclua atualizações pendentes do Windows/antivírus e reinicie novamente.\n"
      + "5) Ainda lento? Anote hora, app afetado e prints e abra um chamado.",
    "Hardware" :=
      "Checklist de impressão:\n"
      + "1) Verifique cabos, energia e se há papel/tinta.\n"
      + "2) Veja se a fila de impressão está pausada e limpe trabalhos travados.\n"
      + "3) Imprima uma página de teste; se falhar, reinstale ou atualize o driver.\n"
      + "4) Teste a mesma impressora em outro computador ou outra impressora no seu.\n"
      + "5) Para suporte, informe modelo, IP (se houver) e a mensagem de erro exibida."
  ]

  /** No fallback text is blank. */
  ghost predicate FallbacksNonBlank(fallbacks: map<string, string>) {
    forall k :: k in fallbacks ==> fallbacks[k] != ""
  }

  lemma FallbackContentNonBlank()
    ensures FallbacksNonBlank(FALLBACK_CONTENT)
  {
    assert FALLBACK_CONTENT.Keys == {"Rede", "Acesso", "Software", "Hardware"};
    assert FALLBACK_CONTENT["Rede"][0] == 'P';
    assert FALLBACK_CONTENT["Acesso"][0] == 'D';
    assert FALLBACK_CONTENT["Software"][0] == 'P';
    assert FALLBACK_CONTENT["Hardware"][0] == 'C';
  }

  /**
   * `buildArticleContent`, over a table `fallbacks` of texts per category (the screen uses
   * `FALLBACK_CONTENT`).
   */
  function ArticleContent(fallbacks: map<string, string>, article: Option<Article>): string {
    if article.None? then ""
    else
      var base := Trim(article.value.content.GetOr(""));
      if base != "" then base
      else if article.value.category in fallbacks && fallbacks[article.value.category] != "" then fallbacks[article.value.category]
      else DEFAULT_CONTENT
  }

  /**
   * The text shown for an article: its trimmed content when that has any, else its
   * category's fallback text, else the default text; nothing at all for a missing article.
   */
  lemma ArticleContentChoice(fallbacks: map<string, string>, a: Article)
    requires FallbacksNonBlank(fallbacks)
    ensures var r := ArticleContent(fallbacks, Some(a));
      && (Trim(a.content.GetOr("")) != "" ==> r == Trim(a.content.GetOr("")) && Trim(r) == r)
      && (Trim(a.content.GetOr("")) == "" && a.category in fallbacks ==> r == fallbacks[a.category])
      && (Trim(a.content.GetOr("")) == "" && a.category !in fallbacks ==> r == DEFAULT_CONTENT)
  {
    TrimIdempotent(a.content.GetOr(""));
  }

  /** With a table of non-blank texts, the shown text is blank exactly for a missing article. */
  lemma ContentBlankOnlyWhenMissing(fallbacks: map<string, string>, article: Option<Article>)
    requires FallbacksNonBlank(fallbacks)
    ensures ArticleContent(fallbacks, article) == "" <==> article.None?
  {
    assert |DEFAULT_CONTENT| > 0;
  }

  // ----- categories and chips -----

  /** The article categories, in list order, without the empty ones (`.filter(Boolean)`). */
  function CategoryNames(all: seq<Article>): (r: seq<string>)
    ensures forall x :: x in r <==> x != "" && exists i :: 0 <= i < |all| && all[i].category == x
    decreases |all|
  {
    if |all| == 0 then []
    else
      var rest := CategoryNames(all[..|all| - 1]);
      var last := all[|all| - 1].category;
      assert forall i :: 0 <= i < |all| - 1 ==> all[..|all| - 1][i] == all[i];
      if last == "" then rest else rest + [last]
  }

  predicate Distinct(xs: seq<string>) {
    forall i, j :: 0 <= i < j < |xs| ==> xs[i] != xs[j]
  }

  /** `x` occurs in `xs` at position `p` and nowhere before it. */
  predicate FirstAt(xs: seq<string>, x: string, p: nat) {
    p < |xs| && xs[p] == x && x !in xs[..p]
  }

  /** `Array.from(new Set(xs))`: each value of `xs` once. */
  function Uniq(xs: seq<string>): (r: seq<string>)
    ensures Distinct(r)
    ensures forall x :: x in r <==> x in xs
    decreases |xs|
  {
    if |xs| == 0 then []
    else
      var rest := Uniq(xs[..|xs| - 1]);
      var last := xs[|xs| - 1];
      assert xs == xs[..|xs| - 1] + [last];
      if last in rest then rest else rest + [last]
  }

  /** The values of `Uniq(xs)` come in the order of their first occurrences in `xs`. */
  lemma {:induction false} UniqFirstOccurrence(xs: seq<string>, i: nat, j: nat)
    requires i < j < |Uniq(xs)|
    ensures exists p: nat, q: nat :: p < q && FirstAt(xs, Uniq(xs)[i], p) && FirstAt(xs, Uniq(xs)[j], q)
    decreases |xs|
  {
    var init := xs[..|xs| - 1];
    var last := xs[|xs| - 1];
    var rest := Uniq(init);
    assert xs == init + [last];
    if j < |rest| {
      assert Uniq(xs)[i] == rest[i] && Uniq(xs)[j] == rest[j];
      UniqFirstOccurrence(init, i, j);
      var p: nat, q: nat :| p < q && FirstAt(init, rest[i], p) && FirstAt(init, rest[j], q);
      FirstAtExtended(init, rest[i], p, last);
      FirstAtExtended(init, rest[j], q, last);
    } else {
      assert Uniq(xs) == rest + [last] && j == |rest| && last !in init;
      var p := FirstIndex(init, rest[i]);
      FirstAtExtended(init, rest[i], p, last);
      assert xs[..|init|] == init;
      assert FirstAt(xs, last, |init|);
      assert Uniq(xs)[i] == rest[i] && Uniq(xs)[j] == last && p < |init|;
    }
  }

  lemma FirstAtExtended(xs: seq<string>, x: string, p: nat, y: string)
    requires FirstAt(xs, x, p)
    ensures FirstAt(xs + [y], x, p)
  {
    assert (xs + [y])[..p] == xs[..p];
  }

  function FirstIndex(xs: seq<string>, x: string): (p: nat)
    requires x in xs
    ensures FirstAt(xs, x, p)
  {
    if xs[0] == x then 0
    else
      var p := FirstIndex(xs[1..], x);
      assert xs[..p + 1] == [xs[0]] + xs[1..][..p];
      p + 1
  }

  /** `categories`. */
  function Categories(all: seq<Article>): seq<string> {
    Uniq(CategoryNames(all))
  }

  /** Each non-empty category of the list appears once among the categories, and nothing else does. */
  lemma CategoriesListed(all: seq<Article>)
    ensures Distinct(Categories(all))
    ensures forall x :: x in Categories(all) <==> x != "" && exists i :: 0 <= i < |all| && all[i].category == x
  {
  }

  const ALL_CHIP: string := "Tudo"

  /** `chipItems`, each chip's label being its value. */
  function ChipItems(all: seq<Article>): seq<string> {
    [ALL_CHIP] + Categories(all)
  }

  /** The chips are "Tudo" and then the categories. */
  lemma ChipsStartWithAll(all: seq<Article>)
    ensures |ChipItems(all)| == |Categories(all)| + 1
    ensures ChipItems(all)[0] == ALL_CHIP && ChipItems(all)[1..] == Categories(all)
  {
  }

  /** `handleCategoryPress`: the category filter a chip sets. */
  function CategoryFilter(value: string): Option<string> {
    if value == ALL_CHIP then None else Some(value)
  }

  // ----- the filter -----

  /** `needle`: the trimmed, lower-cased query. */
  function Needle(query: string): string {
    Lower(Trim(query))
  }

  /** `matchesCategory`: no category filter, or the article's category exactly. */
  predicate MatchesCategory(category: Option<string>, a: Article) {
    !Truthy(category) || a.category == category.value
  }

  predicate TagMatches(tags: seq<string>, needle: string) {
    exists i :: 0 <= i < |tags| && Contains(Lower(tags[i]), needle)
  }

  /** `matchesText`: the title, the shown content or a tag contains the needle, ignoring case. */
  predicate MatchesText(fallbacks: map<string, string>, needle: string, a: Article) {
    || needle == ""
    || Contains(Lower(a.title), needle)
    || Contains(Lower(ArticleContent(fallbacks, Some(a))), needle)
    || TagMatches(a.tags.GetOr([]), needle)
  }

  predicate Matches(fallbacks: map<string, string>, query: string, category: Option<string>, a: Article) {
    MatchesCategory(category, a) && MatchesText(fallbacks, Needle(query), a)
  }

  /** `items`: the articles that match, in list order. */
  function Items(fallbacks: map<string, string>, all: seq<Article>, query: string, category: Option<string>): (r: seq<Article>)
    ensures forall a :: a in r <==> a in all && Matches(fallbacks, query, category, a)
    decreases |all|
  {
    if |all| == 0 then []
    else
      var rest := Items(fallbacks, all[..|all| - 1], query, category);
      var last := all[|all| - 1];
      assert all == all[..|all| - 1] + [last];
      if Matches(fallbacks, query, category, last) then rest + [last] else rest
  }

  /**
   * The filter keeps the list's order: filtering two lists one after the other is filtering
   * each and putting the results one after the other.
   */
  lemma {:induction false} ItemsInOrder(fallbacks: map<string, string>, xs: seq<Article>, ys: seq<Article>,
                                        query: string, category: Option<string>)
    ensures Items(fallbacks, xs + ys, query, category)
         == Items(fallbacks, xs, query, category) + Items(fallbacks, ys, query, category)
    decreases |ys|
  {
    var zs := xs + ys;
    if |ys| == 0 {
      assert zs == xs;
    } else {
      assert zs[..|zs| - 1] == xs + ys[..|ys| - 1];
      assert zs[|zs| - 1] == ys[|ys| - 1];
      ItemsInOrder(fallbacks, xs, ys[..|ys| - 1], query, category);
    }
  }

  /** One article is kept exactly when it matches. */
  lemma ItemsOfOne(fallbacks: map<string, string>, a: Article, query: string, category: Option<string>)
    ensures Items(fallbacks, [a], query, category) == if Matches(fallbacks, query, category, a) then [a] else []
  {
    assert [a][..0] == [];
  }

  /** A blank query with no category filter (the "Tudo" chip) lists every article. */
  lemma {:induction false} BlankQueryListsAll(fallbacks: map<string, string>, all: seq<Article>, query: string)
    requires AllSpace(query)
    ensures Items(fallbacks, all, query, CategoryFilter(ALL_CHIP)) == all
    decreases |all|
  {
    assert Needle(query) == "";
    if |all| > 0 {
      BlankQueryListsAll(fallbacks, all[..|all| - 1], query);
      assert all[..|all| - 1] + [all[|all| - 1]] == all;
    }
  }

  /**
   * Pressing a category chip other than "Tudo" keeps exactly the articles of that category
   * whose text matches.
   */
  lemma CategoryChipFilters(fallbacks: map<string, string>, all: seq<Article>, query: string, chip: string, a: Article)
    requires chip in Categories(all) && chip != ALL_CHIP
    ensures a in Items(fallbacks, all, query, CategoryFilter(chip))
        <==> a in all && a.category == chip && MatchesText(fallbacks, Needle(query), a)
  {
  }
}
