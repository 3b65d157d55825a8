/** The built-in affirmation catalogue (five categories of twenty texts), the
    items it seeds the playlist with, and the grouping of any item list by
    category.

    Every operation takes the category table as its parameter `cats`; the
    concrete table is `AffirmationCategories()`, whose facts are proved one
    category at a time and then combined. */
module Affirmations {
  import opened Seqs
  import opened Text
  import opened Items

  /** A catalogue category: id, display name and affirmation texts. */
  datatype Category = Category(id: string, name: string, affirmations: seq<string>)

  /** A group of `getAffirmationsByCategory`: display name and member items. */
  datatype Group = Group(name: string, items: seq<Item>)

  /** `affirmationCategories`, in table order. */
  function AffirmationCategories(): seq<Category> {
    [FinanceiroCategory(), SaudeCategory(), SonoCategory(), AutoestimaCategory(), ProdutividadeCategory()]
  }

  function FinanceiroId(): string {
    "financeiro"
  }

  function FinanceiroCategory(): Category {
    Category(FinanceiroId(), FinanceiroName(), FinanceiroTexts())
  }

  function FinanceiroName(): string {
    "Financeiro"
  }

  function SaudeId(): string {
    "saude"
  }

  function SaudeCategory(): Category {
    Category(SaudeId(), SaudeName(), SaudeTexts())
  }

  function SaudeName(): string {
    "Saúde"
  }

  function SonoId(): string {
    "sono"
  }

  function SonoCategory(): Category {
    Category(SonoId(), SonoName(), SonoTexts())
  }

  function SonoName(): string {
    "Sono"
  }

  function AutoestimaId(): string {
    "autoestima"
  }

  function AutoestimaCategory(): Category {
    Category(AutoestimaId(), AutoestimaName(), AutoestimaTexts())
  }

  function AutoestimaName(): string {
    "Autoestima"
  }

  function ProdutividadeId(): string {
    "produtividade"
  }

  function ProdutividadeCategory(): Category {
    Category(ProdutividadeId(), ProdutividadeName(), ProdutividadeTexts())
  }

  function ProdutividadeName(): string {
    "Produtividade"
  }

  predicate NoUnderscore(s: string) {
    forall i :: 0 <= i < |s| ==> s[i] != '_'
  }

  /** A category whose id can be told apart inside an item id and that holds twenty texts. */
  predicate TwentyTexts(c: Category) {
    NoUnderscore(c.id) && |c.affirmations| == 20
  }

  lemma FinanceiroShape()
    ensures TwentyTexts(FinanceiroCategory())
  {
  }

  lemma SaudeShape()
    ensures TwentyTexts(SaudeCategory())
  {
  }

  lemma SonoShape()
    ensures TwentyTexts(SonoCategory())
  {
  }

  lemma AutoestimaShape()
    ensures TwentyTexts(AutoestimaCategory())
  {
  }

  lemma ProdutividadeShape()
    ensures TwentyTexts(ProdutividadeCategory())
  {
  }

  /** The five category ids are pairwise distinct. */
  lemma CategoryIdsDistinct()
    ensures NoDup([FinanceiroId(), SaudeId(), SonoId(), AutoestimaId(), ProdutividadeId()])
  {
  }

  /** Each category's texts are a table of twenty, `FinanceiroText(k)` being the `k`-th
      of "Financeiro"; the same shape holds for the other four. */
  function FinanceiroTexts(): seq<string> {
    seq(20, FinanceiroText)
  }

  function FinanceiroText(k: nat): string {
    match k
      case 0 => "Eu atraio abundância e prosperidade para minha vida."
      case 1 => "O dinheiro flui facilmente para mim."
      case 2 => "Eu mereço ser rico e bem-sucedido."
      case 3 => "Minhas finanças estão sempre em ordem."
      case 4 => "Eu sou um ímã para oportunidades financeiras."
      case 5 => "A prosperidade é meu estado natural."
      case 6 => "Eu administro meu dinheiro com sabedoria."
      case 7 => "Novas fontes de renda chegam até mim constantemente."
      case 8 => "Eu estou aberto a receber toda a riqueza que a vida me oferece."
      case 9 => "Minha conta bancária cresce todos os dias."
      case 10 => "Eu tenho uma mentalidade de abundância."
      case 11 => "O sucesso financeiro é inevitável para mim."
      case 12 => "Eu invisto em meu futuro com confiança."
      case 13 => "Minhas dívidas estão sendo eliminadas rapidamente."
      case 14 => "Eu crio riqueza fazendo o que amo."
      case 15 => "A liberdade financeira já é minha realidade."
      case 16 => "Eu agradeço por toda a abundância em minha vida."
      case 17 => "Meus investimentos geram retornos excelentes."
      case 18 => "Eu tenho total controle sobre minhas finanças."
      case 19 => "A riqueza me permite ajudar mais pessoas."
      case _ => ""
  }

  function SaudeTexts(): seq<string> {
    seq(20, SaudeText)
  }

  function SaudeText(k: nat): string {
    match k
      case 0 => "Meu corpo é forte, saudável e cheio de energia."
      case 1 => "Cada célula do meu corpo vibra com saúde perfeita."
      case 2 => "Eu escolho alimentos que nutrem meu corpo."
      case 3 => "Meu sistema imunológico é poderoso."
      case 4 => "Eu durmo profundamente e acordo renovado."
      case 5 => "A cura flui naturalmente pelo meu corpo."
      case 6 => "Eu respeito e cuido do meu corpo com amor."
      case 7 => "Minha mente e meu corpo estão em perfeita harmonia."
      case 8 => "Eu libero toda tensão e estresse do meu corpo."
      case 9 => "A vitalidade pulsa em cada parte de mim."
      case 10 => "Meu corpo se regenera e se fortalece diariamente."
      case 11 => "Eu respiro profundamente e me sinto em paz."
      case 12 => "Minha saúde melhora a cada dia que passa."
      case 13 => "Eu sou grato pela saúde que tenho."
      case 14 => "Meu corpo é meu templo e eu o trato com respeito."
      case 15 => "A energia positiva circula livremente em mim."
      case 16 => "Eu faço escolhas saudáveis naturalmente."
      case 17 => "Meu peso ideal é fácil de manter."
      case 18 => "Eu tenho energia ilimitada para viver plenamente."
      case 19 => "A saúde perfeita é meu direito de nascença."
      case _ => ""
  }

  function SonoTexts(): seq<string> {
    seq(20, SonoText)
  }

  function SonoText(k: nat): string {
    match k
      case 0 => "Eu mereço um sono reparador e tranquilo."
      case 1 => "Minha mente se acalma facilmente para dormir."
      case 2 => "Eu libero todas as preocupações do dia."
      case 3 => "O sono vem naturalmente quando me deito."
      case 4 => "Meu quarto é um santuário de paz e descanso."
      case 5 => "Eu acordo todas as manhãs me sentindo renovado."
      case 6 => "Meu corpo relaxa completamente durante o sono."
      case 7 => "Sonhos positivos me visitam todas as noites."
      case 8 => "Eu durmo profundamente durante toda a noite."
      case 9 => "A tranquilidade envolve minha mente e corpo."
      case 10 => "Cada respiração me leva mais fundo ao relaxamento."
      case 11 => "Eu confio no processo natural do sono."
      case 12 => "Meus pensamentos se aquietam suavemente."
      case 13 => "O descanso restaura toda minha energia."
      case 14 => "Eu me sinto seguro e protegido enquanto durmo."
      case 15 => "A paz interior me embala todas as noites."
      case 16 => "Meu sono é profundo e ininterrupto."
      case 17 => "Eu acordo no momento perfeito, cheio de energia."
      case 18 => "O relaxamento flui por todo meu ser."
      case 19 => "Dormir bem é natural e fácil para mim."
      case _ => ""
  }

  function AutoestimaTexts(): seq<string> {
    seq(20, AutoestimaText)
  }

  function AutoestimaText(k: nat): string {
    match k
      case 0 => "Eu me amo e me aceito completamente."
      case 1 => "Eu sou digno de amor e respeito."
      case 2 => "Minha autoestima cresce a cada dia."
      case 3 => "Eu confio em mim mesmo e em minhas decisões."
      case 4 => "Eu sou único e especial exatamente como sou."
      case 5 => "Meus defeitos são parte da minha humanidade."
      case 6 => "Eu mereço todas as coisas boas da vida."
      case 7 => "Minha voz importa e merece ser ouvida."
      case 8 => "Eu me perdoo por erros passados."
      case 9 => "Sou suficiente exatamente como sou agora."
      case 10 => "Eu irradio confiança e autoestima."
      case 11 => "Minhas qualidades superam minhas imperfeições."
      case 12 => "Eu me trato com gentileza e compaixão."
      case 13 => "Meu valor não depende da opinião dos outros."
      case 14 => "Eu celebro minhas conquistas, grandes e pequenas."
      case 15 => "Sou merecedor de felicidade e sucesso."
      case 16 => "Eu honro meus sentimentos e necessidades."
      case 17 => "Minha autenticidade é minha maior força."
      case 18 => "Eu me orgulho da pessoa que estou me tornando."
      case 19 => "Amor próprio é minha prioridade."
      case _ => ""
  }

  function ProdutividadeTexts(): seq<string> {
    seq(20, ProdutividadeText)
  }

  function ProdutividadeText(k: nat): string {
    match k
      case 0 => "Eu sou focado e produtivo em tudo que faço."
      case 1 => "Minha concentração é forte e duradoura."
      case 2 => "Eu completo minhas tarefas com eficiência."
      case 3 => "O tempo trabalha a meu favor."
      case 4 => "Eu priorizo o que é mais importante."
      case 5 => "Minha mente está clara e organizada."
      case 6 => "Eu transformo desafios em oportunidades."
      case 7 => "A procrastinação não tem poder sobre mim."
      case 8 => "Eu tomo ações decisivas em direção aos meus objetivos."
      case 9 => "Minha energia está direcionada para o que importa."
      case 10 => "Eu crio resultados extraordinários todos os dias."
      case 11 => "Minha disciplina me leva ao sucesso."
      case 12 => "Eu mantenho o foco até completar cada tarefa."
      case 13 => "Pequenas ações consistentes geram grandes resultados."
      case 14 => "Eu administro meu tempo com maestria."
      case 15 => "Minha produtividade aumenta naturalmente."
      case 16 => "Eu trabalho de forma inteligente e eficaz."
      case 17 => "Cada dia sou mais organizado e eficiente."
      case 18 => "Eu celebro cada progresso que faço."
      case 19 => "O sucesso é o resultado natural do meu esforço."
      case _ => ""
  }

  /** The item id `${category.id}_${index}`. */
  function ItemId(categoryId: string, index: nat): string {
    categoryId + "_" + NatToString(index)
  }

  lemma UnderscoreAfterId(a: string, m: nat)
    ensures |ItemId(a, m)| > |a| && ItemId(a, m)[|a|] == '_' && ItemId(a, m)[..|a|] == a
  {
  }

  /** An id splits uniquely at its first underscore, so it determines its category and index. */
  lemma {:induction false} ItemIdInjective(a: string, m: nat, b: string, n: nat)
    requires NoUnderscore(a) && NoUnderscore(b)
    requires ItemId(a, m) == ItemId(b, n)
    ensures a == b && m == n
  {
    var s := ItemId(a, m);
    UnderscoreAfterId(a, m);
    UnderscoreAfterId(b, n);
    assert |a| == |b|;
    assert a == s[..|a|] == b;
    assert NatToString(m) == s[|a| + 1..] == NatToString(n);
    NatToStringInjective(m, n);
  }

  /** The seeded item for the `index`-th affirmation of a category. */
  function MakeItem(c: Category, index: nat): Item
    requires index < |c.affirmations|
  {
    Item(ItemId(c.id, index), c.affirmations[index], "", c.id, c.name, true, None, "", 0)
  }

  /** A freshly seeded item: enabled, without audio or duration, filed under `category`. */
  predicate Seeded(it: Item) {
    it.enabled && it.audioUrl == "" && it.audioDurationMs == 0 && it.order.None? && it.categoryId == ""
  }

  function ItemsOf(c: Category): (r: seq<Item>)
    ensures |r| == |c.affirmations|
    ensures forall k :: 0 <= k < |r| ==> r[k] == MakeItem(c, k)
  {
    seq(|c.affirmations|, (k: int) requires 0 <= k < |c.affirmations| => MakeItem(c, k))
  }

  function TotalTexts(cats: seq<Category>): nat {
    if |cats| == 0 then 0 else |cats[0].affirmations| + TotalTexts(cats[1..])
  }

  /** `createInitialAffirmations`: one seeded item per text, category by category. */
  function CreateInitialAffirmations(cats: seq<Category>): (r: seq<Item>)
    ensures |r| == TotalTexts(cats)
    ensures forall i :: 0 <= i < |r| ==> Seeded(r[i])
  {
    if |cats| == 0 then [] else ItemsOf(cats[0]) + CreateInitialAffirmations(cats[1..])
  }

  /** Every seeded item is filed under the id and name of one of the categories. */
  lemma {:induction false} InitialItemsFiled(cats: seq<Category>)
    ensures var r := CreateInitialAffirmations(cats);
            forall i :: 0 <= i < |r| ==> exists c :: 0 <= c < |cats| && r[i].category == cats[c].id && r[i].categoryName == cats[c].name
  {
    if |cats| > 0 {
      var head, rest := ItemsOf(cats[0]), CreateInitialAffirmations(cats[1..]);
      var r: seq<Item> := head + rest;
      InitialItemsFiled(cats[1..]);
      InitialUnfold(cats);
      forall i | 0 <= i < |r|
        ensures exists c :: 0 <= c < |cats| && r[i].category == cats[c].id && r[i].categoryName == cats[c].name
      {
        if i < |head| {
          assert r[i] == MakeItem(cats[0], i);
        } else {
          AppendAt(head, rest, i);
          var c :| 0 <= c < |cats[1..]| && rest[i - |head|].category == cats[1..][c].id && rest[i - |head|].categoryName == cats[1..][c].name;
          assert cats[1..][c] == cats[c + 1];
        }
      }
    }
  }

  /** With twenty texts per category, item `20 * c + k` is the `k`-th text of category `c`:
      category order first, then text order. */
  lemma InitialItemsOrder(cats: seq<Category>)
    requires forall c :: 0 <= c < |cats| ==> |cats[c].affirmations| == 20
    ensures |CreateInitialAffirmations(cats)| == 20 * |cats|
    ensures forall c, k :: 0 <= c < |cats| && 0 <= k < 20 ==> CreateInitialAffirmations(cats)[20 * c + k] == MakeItem(cats[c], k)
  {
    InitialLength(cats);
    forall c, k | 0 <= c < |cats| && 0 <= k < 20
      ensures CreateInitialAffirmations(cats)[20 * c + k] == MakeItem(cats[c], k)
    {
      InitialItemInBlock(cats, c, k);
    }
  }

  /** Twenty texts per category seed twenty items per category. */
  lemma {:induction false} InitialLength(cats: seq<Category>)
    requires forall c :: 0 <= c < |cats| ==> |cats[c].affirmations| == 20
    ensures |CreateInitialAffirmations(cats)| == 20 * |cats|
  {
    if |cats| > 0 {
      InitialLength(cats[1..]);
      InitialUnfold(cats);
    }
  }

  /** Item `20 * c + k` is the `k`-th text of category `c`, by induction on `c`. */
  lemma {:induction false} InitialItemInBlock(cats: seq<Category>, c: nat, k: nat)
    requires forall c :: 0 <= c < |cats| ==> |cats[c].affirmations| == 20
    requires c < |cats| && k < 20
    ensures 20 * c + k < |CreateInitialAffirmations(cats)|
    ensures CreateInitialAffirmations(cats)[20 * c + k] == MakeItem(cats[c], k)
    decreases c
  {
    var head, rest := ItemsOf(cats[0]), CreateInitialAffirmations(cats[1..]);
    InitialUnfold(cats);
    InitialLength(cats);
    if c == 0 {
      assert (head + rest)[k] == head[k];
    } else {
      InitialItemInBlock(cats[1..], c - 1, k);
      assert cats[1..][c - 1] == cats[c];
      AppendAt(head, rest, 20 * c + k);
    }
  }

  /** A non-empty catalogue seeds its first category's items, then the rest's. */
  lemma InitialUnfold(cats: seq<Category>)
    requires |cats| > 0
    ensures CreateInitialAffirmations(cats) == ItemsOf(cats[0]) + CreateInitialAffirmations(cats[1..])
  {
  }

  /** Position `i` of a list of twenty-item blocks lies in block `i / 20` at `i % 20`. */
  lemma Split20(i: nat, n: nat)
    requires i < 20 * n
    ensures i == 20 * (i / 20) + i % 20 && i % 20 < 20 && i / 20 < n
  {
  }

  /** Seeded item `i` is text `i % 20` of category `i / 20`. */
  lemma InitialItemAt(cats: seq<Category>, i: nat)
    requires forall c :: 0 <= c < |cats| ==> |cats[c].affirmations| == 20
    requires i < |CreateInitialAffirmations(cats)|
    ensures i / 20 < |cats| && i % 20 < 20
    ensures CreateInitialAffirmations(cats)[i] == MakeItem(cats[i / 20], i % 20)
  {
    InitialItemsOrder(cats);
    Split20(i, |cats|);
  }

  /** With distinct underscore-free category ids and twenty texts each, the seeded ids are
      pairwise distinct. */
  lemma InitialIdsDistinct(cats: seq<Category>, i: nat, j: nat)
    requires forall c :: 0 <= c < |cats| ==> TwentyTexts(cats[c])
    requires forall c, d :: 0 <= c < d < |cats| ==> cats[c].id != cats[d].id
    requires i < j < |CreateInitialAffirmations(cats)|
    ensures CreateInitialAffirmations(cats)[i].id != CreateInitialAffirmations(cats)[j].id
  {
    InitialItemAt(cats, i);
    InitialItemAt(cats, j);
    Split20(i, |cats|);
    Split20(j, |cats|);
    var ci, ki, cj, kj := i / 20, i % 20, j / 20, j % 20;
    assert ci != cj || ki != kj;
    assert CreateInitialAffirmations(cats)[i].id == ItemId(cats[ci].id, ki);
    assert CreateInitialAffirmations(cats)[j].id == ItemId(cats[cj].id, kj);
    if ItemId(cats[ci].id, ki) == ItemId(cats[cj].id, kj) {
      ItemIdInjective(cats[ci].id, ki, cats[cj].id, kj);
    }
  }

  /** The built-in catalogue seeds a hundred items with pairwise distinct ids. */
  lemma CatalogueSeedsHundredDistinct()
    ensures |CreateInitialAffirmations(AffirmationCategories())| == 100
    ensures forall i, j :: 0 <= i < j < 100 ==>
      CreateInitialAffirmations(AffirmationCategories())[i].id != CreateInitialAffirmations(AffirmationCategories())[j].id
  {
    var cats := AffirmationCategories();
    CatalogueShape();
    InitialItemsOrder(cats);
    forall i, j | 0 <= i < j < 100
      ensures CreateInitialAffirmations(cats)[i].id != CreateInitialAffirmations(cats)[j].id
    {
      InitialIdsDistinct(cats, i, j);
    }
  }

  /** Every catalogue category holds twenty texts under an underscore-free id, and the ids
      are pairwise distinct. */
  lemma CatalogueShape()
    ensures |AffirmationCategories()| == 5
    ensures forall c :: 0 <= c < 5 ==> TwentyTexts(AffirmationCategories()[c])
    ensures forall c, d :: 0 <= c < d < 5 ==> AffirmationCategories()[c].id != AffirmationCategories()[d].id
  {
    FinanceiroShape();
    SaudeShape();
    SonoShape();
    AutoestimaShape();
    ProdutividadeShape();
    CategoryIdsDistinct();
  }

  function IdIs(id: string): Category -> bool {
    (c: Category) => c.id == id
  }

  /** `category?.name || catId`: the table name of a known id, otherwise the id itself. */
  function CategoryNameOrId(cats: seq<Category>, id: string): (n: string)
    ensures (forall c :: c in cats ==> c.id != id) ==> n == id
    ensures forall k :: 0 <= k < |cats| && cats[k].id == id && (forall j :: 0 <= j < k ==> cats[j].id != id) ==>
              n == (if cats[k].name != "" then cats[k].name else id)
  {
    match Find(cats, IdIs(id))
    case Some(c) => if c.name != "" then c.name else id
    case None => id
  }

  /** `grouped` holds one group per category of `items`, with exactly that category's items. */
  ghost predicate IsGrouping(cats: seq<Category>, items: seq<Item>, grouped: map<string, Group>) {
    && (forall k :: k in grouped <==> k != "" && Filter(items, CatKeyIs(k)) != [])
    && (forall k :: k in grouped ==> grouped[k].items == Filter(items, CatKeyIs(k)))
    && (forall k :: k in grouped ==> grouped[k].name == CategoryNameOrId(cats, k))
  }

  /** One step of the `forEach`: file `item` under its category, creating the group if needed. */
  function AddToGroup(cats: seq<Category>, grouped: map<string, Group>, item: Item): map<string, Group> {
    var k := CatKey(item);
    if k == "" then grouped
    else if k in grouped then grouped[k := grouped[k].(items := grouped[k].items + [item])]
    else grouped[k := Group(CategoryNameOrId(cats, k), [item])]
  }

  lemma AddToGroupKeeps(cats: seq<Category>, init: seq<Item>, grouped: map<string, Group>, item: Item)
    requires IsGrouping(cats, init, grouped)
    ensures IsGrouping(cats, init + [item], AddToGroup(cats, grouped, item))
  {
    var r := AddToGroup(cats, grouped, item);
    forall k': string
      ensures k' in r <==> k' != "" && Filter(init + [item], CatKeyIs(k')) != []
      ensures k' in r ==> r[k'].items == Filter(init + [item], CatKeyIs(k'))
    {
      AddToGroupAt(cats, init, grouped, item, k');
    }
  }

  /** `AddToGroupKeeps` for one key. */
  lemma AddToGroupAt(cats: seq<Category>, init: seq<Item>, grouped: map<string, Group>, item: Item, k': string)
    requires k' in grouped <==> k' != "" && Filter(init, CatKeyIs(k')) != []
    requires k' in grouped ==> grouped[k'].items == Filter(init, CatKeyIs(k'))
    requires CatKey(item) in grouped <==> CatKey(item) != "" && Filter(init, CatKeyIs(CatKey(item))) != []
    ensures k' in AddToGroup(cats, grouped, item) <==> k' != "" && Filter(init + [item], CatKeyIs(k')) != []
    ensures k' in AddToGroup(cats, grouped, item) ==>
              AddToGroup(cats, grouped, item)[k'].items == Filter(init + [item], CatKeyIs(k'))
  {
    var k := CatKey(item);
    FilterAppend(init, [item], CatKeyIs(k'));
    if k' == k {
      assert Filter([item], CatKeyIs(k')) == [item];
      if k != "" && k !in grouped {
        assert Filter(init, CatKeyIs(k)) == [];
      }
    } else {
      assert Filter([item], CatKeyIs(k')) == [];
    }
  }

  /** `getAffirmationsByCategory`: one group per non-empty `categoryId || category`, holding
      exactly that category's items in input order, named after the table when known. */
  function GetAffirmationsByCategory(cats: seq<Category>, items: seq<Item>): (r: map<string, Group>)
    ensures forall k :: k in r <==> k != "" && Filter(items, CatKeyIs(k)) != []
    ensures forall k :: k in r ==> r[k].items == Filter(items, CatKeyIs(k))
    ensures forall k :: k in r ==> r[k].name == CategoryNameOrId(cats, k)
  {
    if |items| == 0 then map[]
    else
      var init := items[..|items| - 1];
      assert items == init + [items[|items| - 1]];
      var g := GetAffirmationsByCategory(cats, init);
      AddToGroupKeeps(cats, init, g, items[|items| - 1]);
      AddToGroup(cats, g, items[|items| - 1])
  }

  /** Every item with a category lands in the group of that category and in no other;
      items without one land nowhere. */
  lemma GroupsPartition(cats: seq<Category>, items: seq<Item>, it: Item)
    requires it in items
    ensures CatKey(it) != "" ==> CatKey(it) in GetAffirmationsByCategory(cats, items)
                                 && it in GetAffirmationsByCategory(cats, items)[CatKey(it)].items
    ensures forall k :: k in GetAffirmationsByCategory(cats, items) && k != CatKey(it) ==>
              it !in GetAffirmationsByCategory(cats, items)[k].items
  {
  }
}
