/**
 * The home page's state machine: which section (main, CV, projects) is shown, the header card
 * (GIF, CV avatar or the scrambled "RUN"), the navigation buttons each section offers, the
 * service buttons, the eye-tracking console and the full-screen UI/UX prototype. Toasts are
 * recorded in order instead of being displayed.
 */
module HomePage {

  datatype Section = Main | Cv | Projects

  /** A toast notification: title and description. */
  datatype Toast = Toast(title: string, description: string)

  /** A navigation button: its caption and the section it was created for. */
  datatype NavButton = NavButton(caption: string, content: Section)

  /** The console prompt that prefixes commands and toast titles. */
  const Prompt: string := "C:\\> "

  /** The description of the toast a section still under construction shows. */
  const UnderConstruction: string := "Раздел в разработке."

  /** The back button. */
  const Back: NavButton := NavButton("..", Main)

  /**
   * The navigation buttons shown in a section, top to bottom. Off the main page the first
   * button leads back; the projects page shows nothing else; CONTACT never shows there.
   */
  function NavButtons(active: Section): (bs: seq<NavButton>)
    ensures active == Main ==>
      bs == [NavButton("CV", Cv), NavButton("PROJECTS", Projects), NavButton("CONTACT", Main)]
    ensures active == Cv ==>
      bs == [Back, NavButton("PROJECTS", Projects), NavButton("CONTACT", Main)]
    ensures active == Projects ==> bs == [Back]
  {
    var first := if active != Main then [Back] else [NavButton("CV", Cv)];
    var second :=
      if active == Main then [NavButton("PROJECTS", Projects)]
      else if active == Projects then []
      else [NavButton("PROJECTS", Projects)];
    var third := if active != Projects then [NavButton("CONTACT", Main)] else [];
    first + second + third
  }

  /** The section a navigation click leads to from `active`. */
  function NavTarget(active: Section, b: NavButton): (s: Section)
    ensures b.caption == ".." ==> s == Main
    ensures b.caption != ".." && (b.content == Cv || b.content == Projects) ==> s == b.content
    ensures b.caption != ".." && b.content == Main ==> s == active
  {
    if b.caption == ".." then Main
    else if b.content == Projects || b.content == Cv then b.content
    else active
  }

  /**
   * Every button a section shows works: the back button returns to the main page, CV and
   * PROJECTS open their sections, and CONTACT leaves the section as it is.
   */
  lemma VisibleButtonTargets(active: Section, k: nat)
    requires k < |NavButtons(active)|
    ensures var b := NavButtons(active)[k];
      (b.caption == ".." <==> active != Main && k == 0) &&
      (b.caption == ".." ==> NavTarget(active, b) == Main) &&
      (b.caption == "CV" ==> NavTarget(active, b) == Cv) &&
      (b.caption == "PROJECTS" ==> NavTarget(active, b) == Projects) &&
      (b.caption == "CONTACT" ==> NavTarget(active, b) == active)
  {
  }

  /** From every section some visible button leads to the main page. */
  lemma MainOneClickAway(active: Section)
    ensures exists k :: 0 <= k < |NavButtons(active)| && NavTarget(active, NavButtons(active)[k]) == Main
  {
    var bs := NavButtons(active);
    if active == Main {
      assert NavTarget(active, bs[2]) == Main;
    } else {
      assert NavTarget(active, bs[0]) == Main;
    }
  }

  /** A lower-case letter `toUpperCase` changes: ASCII, basic Cyrillic and the Cyrillic extensions. */
  predicate IsLower(c: char) {
    ('a' <= c <= 'z') || ('\U{0430}' <= c <= '\U{045F}')
  }

  /** `toUpperCase` of one character, for the letters `IsLower` covers. */
  function UpperChar(c: char): (u: char)
    ensures !IsLower(u)
    ensures !IsLower(c) ==> u == c
    ensures IsLower(c) ==> u != c
  {
    if 'a' <= c <= 'z' then (c as int - 32) as char
    else if '\U{0430}' <= c <= '\U{044F}' then (c as int - 0x20) as char
    else if '\U{0450}' <= c <= '\U{045F}' then (c as int - 0x50) as char
    else c
  }

  /** `s.toUpperCase()`: every character mapped on its own. */
  function ToUpper(s: string): (u: string)
    ensures |u| == |s|
    ensures forall i :: 0 <= i < |s| ==> u[i] == UpperChar(s[i])
  {
    seq(|s|, i requires 0 <= i < |s| => UpperChar(s[i]))
  }

  /** Upper-casing leaves no lower-case letter, and upper-casing twice changes nothing more. */
  lemma ToUpperIdempotent(s: string)
    ensures forall i :: 0 <= i < |s| ==> !IsLower(ToUpper(s)[i])
    ensures ToUpper(ToUpper(s)) == ToUpper(s)
  {
  }

  /** A service on the main page: name, file type and description. */
  datatype Service = Service(name: string, fileType: string, description: string)

  const Services: seq<Service> := [
    Service("Боты", ".EXE", "Разработка Telegram-ботов."),
    Service("Автоматизация", ".SYS", "Автоматизация бизнес-процессов и рутинных задач."),
    Service("Сайты", ".COM", "Создание современных и быстрых веб-сайтов и приложений."),
    Service("Программы", ".APP", "Разработка десктопных и серверных приложений."),
    Service("CV", ".DLL", "Реализация проектов с использованием компьютерного зрения (CV)."),
    Service("UI/UX", ".CFG", "Проектирование интуитивно понятных пользовательских интерфейсов.")
  ]

  /** The toast a service without its own screen shows. */
  function ServiceToast(name: string, description: string, fileType: string): (t: Toast)
    ensures t.description == description
    ensures |t.title| == |Prompt| + |name| + |fileType|
    ensures t.title[..|Prompt|] == Prompt
    ensures t.title[|Prompt| + |name|..] == fileType
    ensures t.title[|Prompt|..|Prompt| + |name|] == ToUpper(name)
  {
    Toast(Prompt + ToUpper(name) + fileType, description)
  }

  /** The bots service announces itself as an executable, its Cyrillic name upper-cased. */
  lemma BotsToast()
    ensures ServiceToast(Services[0].name, Services[0].description, Services[0].fileType).title ==
      "C:\\> БОТЫ.EXE"
  {
    assert ToUpper("Боты") == "БОТЫ";
  }

  /** What the header card shows. */
  datatype Header = MatrixGif | CvAvatar | ScrambledRun

  /** What the page shows: the full-screen prototype, or a section with its header card. */
  datatype Screen =
    | PrototypeScreen
    | PageScreen(section: Section, header: Header, buttons: seq<NavButton>, eyeTracking: bool)

  class HomePage {
    var activeContent: Section
    var showGif: bool
    var showCvAvatar: bool
    var showCvModal: bool
    var showUiUxFullScreen: bool
    var toasts: seq<Toast>

    /** The CV avatar is shown exactly on the CV page. */
    ghost predicate Valid()
      reads this
    {
      showCvAvatar <==> activeContent == Cv
    }

    constructor ()
      ensures Valid()
      ensures activeContent == Main && !showGif && !showCvAvatar && !showCvModal && !showUiUxFullScreen
      ensures toasts == []
    {
      activeContent := Main;
      showGif, showCvAvatar, showCvModal, showUiUxFullScreen := false, false, false, false;
      toasts := [];
    }

    /** The screen the current state renders. */
    function View(): (s: Screen)
      reads this
      ensures showUiUxFullScreen <==> s == PrototypeScreen
      ensures s.PageScreen? ==>
        s.section == activeContent && s.buttons == NavButtons(activeContent) &&
        s.eyeTracking == showCvModal &&
        (s.header == MatrixGif <==> showGif) &&
        (s.header == CvAvatar <==> !showGif && showCvAvatar)
    {
      if showUiUxFullScreen then PrototypeScreen
      else
        var header := if showGif then MatrixGif else if showCvAvatar then CvAvatar else ScrambledRun;
        PageScreen(activeContent, header, NavButtons(activeContent), showCvModal)
    }

    /** `handleNavClick`: switch section; the avatar flag follows whether it is the CV page. */
    method HandleNavClick(content: Section)
      modifies this
      ensures Valid()
      ensures activeContent == content && (showCvAvatar <==> content == Cv)
      ensures showGif == old(showGif) && showCvModal == old(showCvModal)
      ensures showUiUxFullScreen == old(showUiUxFullScreen) && toasts == old(toasts)
    {
      activeContent := content;
      showCvAvatar := content == Cv;
    }

    /**
     * A navigation button's click: '..' goes to the main page, CV and PROJECTS to their
     * sections; anything else (CONTACT) keeps the section and toasts that it is unfinished.
     */
    method NavButtonClicked(b: NavButton)
      requires Valid()
      modifies this
      ensures Valid()
      ensures activeContent == NavTarget(old(activeContent), b)
      ensures b.caption != ".." && b.content == Main ==>
        toasts == old(toasts) + [Toast(Prompt + b.caption, UnderConstruction)]
      ensures b.caption == ".." || b.content == Cv || b.content == Projects ==> toasts == old(toasts)
      ensures showGif == old(showGif) && showCvModal == old(showCvModal)
      ensures showUiUxFullScreen == old(showUiUxFullScreen)
    {
      if b.caption == ".." {
        HandleNavClick(Main);
      } else if b.content == Projects || b.content == Cv {
        HandleNavClick(b.content);
      } else {
        toasts := toasts + [Toast(Prompt + b.caption, UnderConstruction)];
      }
    }

    /**
     * `handleServiceClick`: 'CV' opens the eye-tracking console, 'UI/UX' the full-screen
     * prototype; every other service only toasts its upper-cased name and file type.
     */
    method HandleServiceClick(serviceName: string, description: string, fileType: string)
      modifies this
      ensures serviceName == "CV" ==>
        showCvModal && showUiUxFullScreen == old(showUiUxFullScreen) && toasts == old(toasts)
      ensures serviceName == "UI/UX" ==>
        showUiUxFullScreen && showCvModal == old(showCvModal) && toasts == old(toasts)
      ensures serviceName != "CV" && serviceName != "UI/UX" ==>
        showCvModal == old(showCvModal) && showUiUxFullScreen == old(showUiUxFullScreen) &&
        toasts == old(toasts) + [ServiceToast(serviceName, description, fileType)]
      ensures activeContent == old(activeContent) && showGif == old(showGif)
      ensures showCvAvatar == old(showCvAvatar)
    {
      if serviceName == "CV" {
        showCvModal := true;
      } else if serviceName == "UI/UX" {
        showUiUxFullScreen := true;
      } else {
        toasts := toasts + [Toast(Prompt + ToUpper(serviceName) + fileType, description)];
      }
    }

    /** The eye button beside the CV's objective, shown only on the CV page, opens the console. */
    method EyeButtonClicked()
      requires activeContent == Cv && !showUiUxFullScreen
      modifies this
      ensures showCvModal
      ensures activeContent == old(activeContent) && showCvAvatar == old(showCvAvatar)
      ensures showGif == old(showGif) && showUiUxFullScreen == old(showUiUxFullScreen)
      ensures toasts == old(toasts)
    {
      showCvModal := true;
    }

    /** A click on the header card starts the GIF, unless it is already showing. */
    method HeaderCardClicked()
      modifies this
      ensures showGif
      ensures activeContent == old(activeContent) && showCvAvatar == old(showCvAvatar)
      ensures showCvModal == old(showCvModal) && showUiUxFullScreen == old(showUiUxFullScreen)
      ensures toasts == old(toasts)
    {
      if !showGif {
        showGif := true;
      }
    }

    /** Three seconds after the GIF has loaded it is hidden again. */
    method GifTimerElapsed()
      modifies this
      ensures !showGif
      ensures activeContent == old(activeContent) && showCvAvatar == old(showCvAvatar)
      ensures showCvModal == old(showCvModal) && showUiUxFullScreen == old(showUiUxFullScreen)
      ensures toasts == old(toasts)
    {
      showGif := false;
    }

    /** Closing the eye-tracking console. */
    method CloseCvModal()
      modifies this
      ensures !showCvModal
      ensures activeContent == old(activeContent) && showCvAvatar == old(showCvAvatar)
      ensures showGif == old(showGif) && showUiUxFullScreen == old(showUiUxFullScreen)
      ensures toasts == old(toasts)
    {
      showCvModal := false;
    }

    /** The "back to the site" button under the full-screen prototype. */
    method LeavePrototype()
      modifies this
      ensures !showUiUxFullScreen
      ensures activeContent == old(activeContent) && showCvAvatar == old(showCvAvatar)
      ensures showGif == old(showGif) && showCvModal == old(showCvModal)
      ensures toasts == old(toasts)
    {
      showUiUxFullScreen := false;
    }
  }
}
