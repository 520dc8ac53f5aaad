/** The gallery's top-level state (`App`, App.tsx:369-520) and the prompt
    modal's own state (`PromptModal`, App.tsx:239-256): the boot flag, the
    selected category, the search query, the open prompt, and the modal's
    `copied` flag with its pending resets. Every reset has the same delay,
    so only the order in which they fire is kept, not the delay itself.
    User events are method calls; the clipboard is a log of the texts
    written to it. */
module Shell {
  import opened Types
  import opened Data
  import opened Search

  datatype Option<T> = None | Some(value: T)

  class App {
    /** `booted`: the gallery replaces the boot screen once it is set. */
    var booted: bool
    /** `selectedCategory`. */
    var selected: Selection
    /** `searchQuery`. */
    var query: string
    /** `activePrompt`: the modal is mounted exactly while it is set. */
    var active: Option<Prompt>
    /** How many modal instances have been mounted; the current one is
        number `modal` while `active` is set. */
    var modal: nat
    /** The current modal instance's `copied` state. */
    var copied: bool
    /** The pending `setCopied(false)` timers, oldest first, each tagged
        with the modal instance that scheduled it. They all have the same
        delay, so they fire in the order they were scheduled. */
    var resets: seq<nat>
    /** The texts written to the clipboard, in order. */
    var clipboard: seq<string>

    /** Before boot only the boot screen is rendered, so no modal exists;
        without a modal nothing is copied; every pending reset belongs to a
        modal instance that was mounted; while `copied` is set a reset of the
        current instance is pending, so the flag always goes back. */
    ghost predicate Valid()
      reads this
    {
      && (!booted ==> active.None? && resets == [] && modal == 0)
      && (active.None? ==> !copied)
      && (forall k :: 0 <= k < |resets| ==> resets[k] <= modal)
      && (copied ==> modal in resets)
    }

    /** The initial render: the boot screen, `'All'`, the empty query, no
        open prompt. */
    constructor ()
      ensures Valid()
      ensures !booted && selected == All && query == "" && active == None
      ensures !copied && resets == [] && clipboard == []
    {
      booted := false;
      selected := All;
      query := "";
      active := None;
      modal := 0;
      copied := false;
      resets := [];
      clipboard := [];
    }

    /** `filteredPrompts`: the records of `ALL_PROMPTS` that pass the
        current selection and query, in catalogue order. */
    function Filtered(): seq<Prompt>
      reads this
    {
      Filter(AllPrompts(), selected, query)
    }

    /** `onComplete` of the boot screen: `setBooted(true)`. */
    method CompleteBoot()
      requires Valid()
      modifies this
      ensures Valid() && booted
      ensures selected == old(selected) && query == old(query) && active == old(active)
      ensures modal == old(modal) && copied == old(copied) && resets == old(resets)
      ensures clipboard == old(clipboard)
    {
      booted := true;
    }

    /** A sidebar entry (or the logo, or `./all_files`) is clicked:
        `setSelectedCategory`. The sidebar exists only after boot. */
    method SelectCategory(sel: Selection)
      requires Valid()
      modifies this
      ensures Valid()
      ensures selected == (if old(booted) then sel else old(selected))
      ensures booted == old(booted) && query == old(query) && active == old(active)
      ensures modal == old(modal) && copied == old(copied) && resets == old(resets)
      ensures clipboard == old(clipboard)
      ensures old(booted) ==> Filtered() == Filter(AllPrompts(), sel, query)
    {
      if booted {
        selected := sel;
      }
    }

    /** The search box changes: `setSearchQuery(e.target.value)`. */
    method SetSearch(value: string)
      requires Valid()
      modifies this
      ensures Valid()
      ensures query == (if old(booted) then value else old(query))
      ensures booted == old(booted) && selected == old(selected) && active == old(active)
      ensures modal == old(modal) && copied == old(copied) && resets == old(resets)
      ensures clipboard == old(clipboard)
      ensures old(booted) ==> Filtered() == Filter(AllPrompts(), selected, value)
    {
      if booted {
        query := value;
      }
    }

    /** A card is clicked: `setActivePrompt(p)`. When no modal was open a
        fresh modal instance mounts with `copied` false; when one was open
        React keeps that instance and only its `prompt` prop changes. */
    method OpenPrompt(p: Prompt)
      requires Valid()
      modifies this
      ensures Valid()
      ensures active == (if old(booted) then Some(p) else old(active))
      ensures modal == (if old(booted) && old(active).None? then old(modal) + 1 else old(modal))
      ensures copied == (if old(active).None? then false else old(copied))
      ensures booted == old(booted) && selected == old(selected) && query == old(query)
      ensures resets == old(resets) && clipboard == old(clipboard)
    {
      if booted {
        if active.None? {
          modal := modal + 1;
          copied := false;
        }
        active := Some(p);
      }
    }

    /** `onClose`: `setActivePrompt(null)` unmounts the modal. */
    method Close()
      requires Valid()
      modifies this
      ensures Valid()
      ensures active == None && !copied
      ensures booted == old(booted) && selected == old(selected) && query == old(query)
      ensures modal == old(modal) && resets == old(resets) && clipboard == old(clipboard)
    {
      active := None;
      copied := false;
    }

    /** A `keydown` event on the window. The modal's listener is registered
        only while the modal is mounted, and it closes the modal exactly
        for the key `Escape`. */
    method KeyDown(key: string)
      requires Valid()
      modifies this
      ensures Valid()
      ensures active == (if key == "Escape" then None else old(active))
      ensures copied == (if key == "Escape" then false else old(copied))
      ensures booted == old(booted) && selected == old(selected) && query == old(query)
      ensures modal == old(modal) && resets == old(resets) && clipboard == old(clipboard)
    {
      if active.Some? && key == "Escape" {
        Close();
      }
    }

    /** `handleCopy`: write the prompt's code to the clipboard, set
        `copied`, and schedule its reset. The button exists only while the
        modal is open. */
    method HandleCopy()
      requires Valid()
      modifies this
      ensures Valid()
      ensures old(active).None? ==>
        copied == old(copied) && resets == old(resets) && clipboard == old(clipboard)
      ensures old(active).Some? ==>
        && copied
        && resets == old(resets) + [modal]
        && clipboard == old(clipboard) + [old(active).value.code]
      ensures booted == old(booted) && selected == old(selected) && query == old(query)
      ensures active == old(active) && modal == old(modal)
    {
      if active.Some? {
        clipboard := clipboard + [active.value.code];
        copied := true;
        resets := resets + [modal];
      }
    }

    /** The oldest pending reset fires. It clears `copied` only when the
        instance that scheduled it is still mounted; a reset from a closed
        modal updates state nobody renders. */
    method ResetFires()
      requires Valid()
      modifies this
      ensures Valid()
      ensures resets == (if old(resets) == [] then [] else old(resets)[1..])
      ensures copied == (if old(resets) != [] && old(resets)[0] == modal then false else old(copied))
      ensures booted == old(booted) && selected == old(selected) && query == old(query)
      ensures active == old(active) && modal == old(modal) && clipboard == old(clipboard)
    {
      if resets != [] {
        var tag := resets[0];
        resets := resets[1..];
        if tag == modal {
          copied := false;
        }
        if copied {
          assert modal in resets by {
            assert modal in old(resets) && old(resets)[0] != modal;
            var k :| 0 <= k < |old(resets)| && old(resets)[k] == modal;
            assert resets[k - 1] == modal;
          }
        }
      }
    }

    /** Letting every pending reset fire leaves the modal's `copied` flag
        cleared, whatever was clicked before. */
    method SettleResets()
      requires Valid()
      modifies this
      ensures Valid() && !copied && resets == []
      ensures booted == old(booted) && selected == old(selected) && query == old(query)
      ensures active == old(active) && modal == old(modal) && clipboard == old(clipboard)
    {
      while resets != []
        invariant Valid()
        invariant booted == old(booted) && selected == old(selected) && query == old(query)
        invariant active == old(active) && modal == old(modal) && clipboard == old(clipboard)
        decreases |resets|
      {
        ResetFires();
      }
    }
  }
}
