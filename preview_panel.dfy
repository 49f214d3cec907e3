/** The logic of components/PreviewPanel.tsx: the file map handed to the
    Sandpack sandbox, the message of the "Fix Issues" button, and which panes
    the view mode collapses. */
module PreviewPanel {
  import opened Wrappers
  import opened Gemini

  datatype ViewMode = Split | Preview | Code

  /** The error the sandbox reports. */
  datatype SandboxError = SandboxError(message: string)

  const PlaceholderPath: string := "App.tsx"

  /** The opening of the placeholder app shown before anything is generated;
      the rest of its markup is not reproduced. */
  const PlaceholderApp: string := "import React from 'react';"

  const DefaultFixMessage: string := "Please check the code for errors and fix them."

  // ---------------------------------------------------------------------
  // The file map

  /** The map the assignments `sandpackFiles[file.path] = file.content` build,
      one file after the other. */
  function FileMap(files: seq<GeneratedFile>): map<string, string>
  {
    if files == [] then map[]
    else FileMap(files[..|files| - 1])[files[|files| - 1].path := files[|files| - 1].content]
  }

  /** Its keys are exactly the paths, and each path holds the content of the
      last file with that path. */
  lemma {:induction false} FileMapLastWins(files: seq<GeneratedFile>)
    ensures FileMap(files).Keys == set f | f in files :: f.path
    ensures forall i :: 0 <= i < |files| && (forall j :: i < j < |files| ==> files[j].path != files[i].path) ==>
      FileMap(files)[files[i].path] == files[i].content
  {
    if files != [] {
      var init := files[..|files| - 1];
      var last := files[|files| - 1];
      FileMapLastWins(init);
      assert files == init + [last];
      assert (set f | f in files :: f.path) == (set f | f in init :: f.path) + {last.path};
      forall i | 0 <= i < |files| && (forall j :: i < j < |files| ==> files[j].path != files[i].path)
        ensures FileMap(files)[files[i].path] == files[i].content
      {
        if i < |files| - 1 {
          assert files[i] == init[i];
          assert forall j :: i < j < |init| ==> init[j].path != init[i].path by {
            forall j | i < j < |init| ensures init[j].path != init[i].path {
              assert init[j] == files[j];
            }
          }
        }
      }
    }
  }

  /** `sandpackFiles`: the placeholder alone for no files, otherwise the
      files one by one. */
  method BuildSandpackFiles(files: seq<GeneratedFile>) returns (m: map<string, string>)
    ensures files == [] ==> m == map[PlaceholderPath := PlaceholderApp]
    ensures files != [] ==> m == FileMap(files)
  {
    m := map[];
    if |files| == 0 {
      m := m[PlaceholderPath := PlaceholderApp];
      return;
    }
    var i := 0;
    while i < |files|
      invariant 0 <= i <= |files|
      invariant m == FileMap(files[..i])
    {
      assert files[..i + 1][..i] == files[..i];
      m := m[files[i].path := files[i].content];
      i := i + 1;
    }
    assert files[..i] == files;
  }

  /** For generated files the placeholder is never added: the keys are the
      paths and nothing else. */
  method SandpackKeys(files: seq<GeneratedFile>) returns (m: map<string, string>)
    requires files != []
    ensures m.Keys == set f | f in files :: f.path
    ensures forall i :: 0 <= i < |files| && (forall j :: i < j < |files| ==> files[j].path != files[i].path) ==>
      m[files[i].path] == files[i].content
  {
    m := BuildSandpackFiles(files);
    FileMapLastWins(files);
  }

  // ---------------------------------------------------------------------
  // The "Fix Issues" button

  /** What a click on the button asks the AI to fix: nothing is shown
      without a handler or without an error; otherwise the error's message,
      or the default text when that message is empty. */
  function FixRequest(hasHandler: bool, error: Option<SandboxError>): (r: Option<string>)
    ensures r.Some? <==> hasHandler && error.Some?
    ensures r.Some? ==> r.value != ""
    ensures r.Some? && error.value.message != "" ==> r.value == error.value.message
    ensures r.Some? && error.value.message == "" ==> r.value == DefaultFixMessage
  {
    if hasHandler && error.Some? then Some(OrElse(Some(error.value.message), DefaultFixMessage)) else None
  }

  // ---------------------------------------------------------------------
  // Panes

  predicate ExplorerCollapsed(mode: ViewMode) { mode == Preview }

  predicate EditorCollapsed(mode: ViewMode) { mode == Preview }

  predicate PreviewCollapsed(mode: ViewMode) { mode == Code }

  /** Every view mode leaves the editor or the preview open, and only the
      split mode leaves both open. */
  lemma SomePaneOpen(mode: ViewMode)
    ensures !EditorCollapsed(mode) || !PreviewCollapsed(mode)
    ensures !EditorCollapsed(mode) && !PreviewCollapsed(mode) <==> mode == Split
  {
  }
}
