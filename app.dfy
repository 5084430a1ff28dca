/** The application shell (src/ui/App.tsx): the current screen, its
    changes on 'q' and on menu selection, and which screens have a view. */
module App {

  const Menu: string := "menu"
  const Matches: string := "matches"
  const Status: string := "status"
  const Exit: string := "exit"
  const Quit: string := "q"

  /** What `renderScreen` draws. */
  datatype View = MenuView | MatchesView | StatusView | InvalidScreen

  function RenderScreen(screen: string): View {
    if screen == Menu then MenuView
    else if screen == Matches then MatchesView
    else if screen == Status then StatusView
    else InvalidScreen
  }

  /** Only the menu, matches and status screens have a view; every other
      value, among them "keywords", "settings" and "exit", draws the
      fallback. */
  lemma RenderScreenSpec(screen: string)
    ensures RenderScreen(screen) != InvalidScreen <==> screen in {Menu, Matches, Status}
    ensures RenderScreen("keywords") == InvalidScreen && RenderScreen("settings") == InvalidScreen
    ensures RenderScreen(Exit) == InvalidScreen
  {
  }

  /** The screen and the number of `exit` calls. */
  datatype Shell = Shell(screen: string, exits: nat)

  /** `useInput`: 'q' returns to the menu, or exits from the menu. */
  function OnInput(s: Shell, input: string): Shell {
    if input == Quit && s.screen != Menu then s.(screen := Menu)
    else if input == Quit && s.screen == Menu then s.(exits := s.exits + 1)
    else s
  }

  /** `handleMenuSelect`: 'exit' calls `exit` first; the screen always
      becomes the selected value. */
  function OnMenuSelect(s: Shell, value: string): Shell {
    Shell(value, if value == Exit then s.exits + 1 else s.exits)
  }

  /** 'q' leads back to the menu from anywhere and exits from the menu:
      from another screen two presses call `exit` once, and other input
      never changes anything. */
  lemma QuitSpec(s: Shell, input: string)
    ensures input != Quit ==> OnInput(s, input) == s
    ensures s.screen != Menu ==> OnInput(s, Quit) == Shell(Menu, s.exits)
    ensures s.screen == Menu ==> OnInput(s, Quit) == Shell(Menu, s.exits + 1)
    ensures s.screen != Menu ==> OnInput(OnInput(s, Quit), Quit) == Shell(Menu, s.exits + 1)
  {
  }

  /** Selecting an item shows its screen; 'exit' alone calls `exit`. */
  lemma MenuSelectSpec(s: Shell, value: string)
    ensures OnMenuSelect(s, value).screen == value
    ensures OnMenuSelect(s, value).exits == s.exits + (if value == Exit then 1 else 0)
  {
  }

  class AppState {
    var currentScreen: string
    var exits: nat
    /** Calls to `console.clear`. */
    var clears: nat

    constructor ()
      ensures currentScreen == Menu && exits == 0 && clears == 0
    {
      currentScreen, exits, clears := Menu, 0, 0;
    }

    function State(): Shell
      reads this
    {
      Shell(currentScreen, exits)
    }

    /** `changeScreen(screen)`: clears the console and switches. */
    method ChangeScreen(screen: string)
      modifies this`currentScreen, this`clears
      ensures currentScreen == screen && clears == old(clears) + 1
    {
      clears := clears + 1;
      currentScreen := screen;
    }

    method HandleInput(input: string)
      modifies this
      ensures State() == OnInput(old(State()), input)
      ensures clears == old(clears) + (if input == Quit && old(currentScreen) != Menu then 1 else 0)
    {
      if input == Quit && currentScreen != Menu {
        ChangeScreen(Menu);
      } else if input == Quit && currentScreen == Menu {
        exits := exits + 1;
      }
    }

    method HandleMenuSelect(value: string)
      modifies this
      ensures State() == OnMenuSelect(old(State()), value)
      ensures clears == old(clears) + 1
    {
      if value == Exit {
        exits := exits + 1;
      }
      ChangeScreen(value);
    }
  }
}
