/** The entities shared by every part of the application, and its seeded constants. */
module Types {
  import opened Wrappers

  /** The two roles; there is no hierarchy beyond them. */
  datatype Role = USER | ADMIN

  /** A user profile. An absent `banned` flag reads as `false` everywhere it is used, so it is a plain
      boolean here; `savedTutorials` keeps the absent case, which `toggleSaveTutorial` and the saved page
      treat specially. `createdAt` is an opaque, already formatted timestamp. */
  datatype User = User(
    id: string,
    email: string,
    name: string,
    role: Role,
    createdAt: string,
    banned: bool,
    savedTutorials: Option<seq<string>>)

  datatype Comment = Comment(
    id: string,
    tutorialId: string,
    userId: string,
    userName: string,
    content: string,
    createdAt: string)

  /** A tutorial. An absent comment list is indistinguishable from an empty one in every use
      (counted as 0, rendered as nothing, left alone by comment deletion), so it is a sequence. */
  datatype Tutorial = Tutorial(
    id: string,
    title: string,
    description: string,
    steps: seq<string>,
    authorId: string,
    authorName: string,
    category: string,
    createdAt: string,
    approved: bool,
    upvotes: int,
    comments: seq<Comment>)

  /** A reported problem; `stepNumber == None` marks a problem with the tutorial as a whole. */
  datatype TutorialProblem = TutorialProblem(
    id: string,
    tutorialId: string,
    userId: string,
    userName: string,
    stepNumber: Option<int>,
    description: string,
    createdAt: string,
    resolved: bool)

  datatype TutorialRequest = TutorialRequest(
    id: string,
    userId: string,
    userName: string,
    title: string,
    description: string,
    category: string,
    createdAt: string,
    upvotes: int,
    upvotedBy: seq<string>,
    answered: bool,
    answeredTutorialId: Option<string>)

  /** The kinds of object an audit entry can name. */
  datatype TargetType = TutorialTarget | CommentTarget | UserTarget | ProblemTarget | RequestTarget

  datatype AdminLog = AdminLog(
    id: string,
    adminId: string,
    adminName: string,
    action: string,
    targetType: TargetType,
    targetId: string,
    targetName: string,
    createdAt: string)

  /** The closed category list shared by tutorials and requests. */
  const Categories: seq<string> := ["Tecnologia", "Culinária", "Casa e Jardim", "Estilo de Vida"]

  /** Every role is one of the two. */
  lemma RoleHasTwoValues(r: Role)
    ensures r == USER || r == ADMIN
  {
  }

  /** The category list has four distinct entries. */
  lemma CategoriesAreFour()
    ensures |Categories| == 4
    ensures forall i, j :: 0 <= i < j < |Categories| ==> Categories[i] != Categories[j]
  {
  }

  const InitialTutorials: seq<Tutorial> := [
    Tutorial(
      "1",
      "Instalando Node via NVM",
      "A forma mais segura de instalar Node no Linux.",
      [
        "Abra o terminal e execute: curl -o- https://raw.githubusercontent.com/nvm-sh/nvm/v0.39.0/install.sh | bash",
        "Reinicie o terminal ou execute: source ~/.bashrc",
        "Instale a versão desejada: nvm install 20"
      ],
      "1", "Bob Expert", "Tecnologia", "25/10/2023", true, 1,
      [
        Comment("c1", "1", "3", "Carlos Silva", "Muito útil! Funcionou perfeitamente no meu Ubuntu.", "26/10/2023"),
        Comment("c2", "1", "4", "Ana Costa", "Dica: se der erro de permissão, tente rodar com sudo.", "27/10/2023")
      ]),
    Tutorial(
      "2",
      "Como fazer pão caseiro",
      "Receita simples de pão caseiro macio e delicioso.",
      [
        "Misture 500g de farinha, 10g de sal e 7g de fermento seco",
        "Adicione 300ml de água morna e misture até formar uma massa",
        "Sove por 10 minutos e deixe descansar por 1 hora",
        "Asse em forno pré-aquecido a 200°C por 30 minutos"
      ],
      "2", "Maria Chef", "Culinária", "20/10/2023", true, 5,
      [
        Comment("c3", "2", "5", "Pedro Santos", "Ficou delicioso! Minha família adorou.", "21/10/2023")
      ])
  ]

  const InitialRequests: seq<TutorialRequest> := [
    TutorialRequest(
      "1", "3", "Carlos Silva",
      "Como configurar Docker no Windows?",
      "Preciso de um tutorial passo a passo para instalar e configurar Docker no Windows 11 com WSL2.",
      "Tecnologia", "22/11/2025", 3, ["4", "5", "6"], false, None),
    TutorialRequest(
      "2", "4", "Ana Costa",
      "Receita de bolo de chocolate sem glúten",
      "Alguém pode fazer um tutorial de bolo de chocolate que seja sem glúten e fácil de fazer?",
      "Culinária", "20/11/2025", 7, ["1", "2", "3", "5", "6", "7", "8"], false, None)
  ]

  /** Each seeded comment belongs to the tutorial that lists it. */
  lemma SeededCommentsBelong()
    ensures forall t, c :: t in InitialTutorials && c in t.comments ==> c.tutorialId == t.id
  {
  }

  /** Each seeded request is in a category of the closed list. */
  lemma SeededCategoriesListed()
    ensures forall t :: t in InitialTutorials ==> t.category in Categories
    ensures forall r :: r in InitialRequests ==> r.category in Categories
  {
  }
}
