/** The image download of the home page (src/app/page.tsx): the download file name and the
    control flow of `handleDownload` around an abstract capture. */
module ExportPage {
  import opened CanvasTypes
  import opened JsText
  import opened CanvasDataHook

  /** The options handed to the rasteriser. */
  datatype CaptureOptions = CaptureOptions(
    scale: real,
    useCors: bool,
    backgroundColor: string,
    width: real,
    height: real,
    windowWidth: real,
    windowHeight: real)

  /** The fixed capture settings: twice the resolution of a 1400 by 787.5 pixel (16:9)
      canvas on white. */
  const CAPTURE_OPTIONS: CaptureOptions := CaptureOptions(2.0, true, "#ffffff", 1400.0, 787.5, 1400.0, 787.5)

  /** How a capture attempt ends: the rasteriser throws, the image encoding throws (after
      the container has been removed), or an image is produced. */
  datatype CaptureOutcome = CaptureThrows | EncodeThrows | Captured

  /** The download name: `EBMC-13-`, the title with every whitespace run replaced by one
      `-`, and `.png`. */
  function DownloadFileName(title: string): string {
    "EBMC-13-" + CollapseSpaces(title, '-') + ".png"
  }

  /** The file name has the fixed prefix and suffix and no whitespace in between, and a title
      without whitespace appears in it unchanged. */
  lemma FileNameShape(title: string)
    ensures var name := DownloadFileName(title);
      StartsWith(name, "EBMC-13-") && |name| >= 12 && name[|name| - 4..] == ".png" &&
      NoSpace(name[8..|name| - 4]) && name[8..|name| - 4] == CollapseSpaces(title, '-')
    ensures NoSpace(title) ==> DownloadFileName(title) == "EBMC-13-" + title + ".png"
  {
    var name := DownloadFileName(title);
    var mid := CollapseSpaces(title, '-');
    assert name[8..|name| - 4] == mid;
    assert name[|name| - 4..] == ".png";
    assert !IsSpace('-');
    CollapseHasNoSpace(title, '-');
    if NoSpace(title) {
      CollapseKeepsSpaceFree(title, '-');
    }
  }

  /** Two words separated by any whitespace run are joined by a single `-`, so that
      "Modified Startup" gives "EBMC-13-Modified-Startup.png". */
  lemma FileNameJoinsWords(w1: string, run: string, w2: string)
    requires NoSpace(w1) && NoSpace(w2) && run != [] && AllSpace(run)
    ensures DownloadFileName(w1 + run + w2) == "EBMC-13-" + w1 + "-" + w2 + ".png"
  {
    CollapseRun(w1, run, w2, '-');
  }

  /** The page: the hook's state, whether the canvas element is mounted, and what the
      download handler has done so far. */
  class Page {
    const session: CanvasSession
    var canvasMounted: bool
    /** Off-screen containers still attached to the document body. */
    var attachedContainers: nat
    /** Every capture requested, in order. */
    var captures: seq<CaptureOptions>
    /** The file name of every download started, in order. */
    var downloads: seq<string>
    /** Error alerts raised. */
    var alerts: nat
    /** The values written to the busy flag, in order. */
    var busyTrace: seq<bool>

    constructor(s: CanvasSession, mounted: bool)
      ensures session == s && canvasMounted == mounted
      ensures attachedContainers == 0 && captures == [] && downloads == [] && alerts == 0 && busyTrace == []
    {
      session := s;
      canvasMounted := mounted;
      attachedContainers := 0;
      captures := [];
      downloads := [];
      alerts := 0;
      busyTrace := [];
    }

    /** `handleDownload`, with the capture's outcome given. Without a mounted canvas it does
        nothing; otherwise the busy flag goes up and then down on every path, the capture is
        requested with the fixed options, the container is removed only once an image was
        produced, a failure raises one alert, and the document is never touched. */
    method HandleDownload(outcome: CaptureOutcome)
      modifies this`attachedContainers, this`captures, this`downloads, this`alerts, this`busyTrace
      modifies session`downloading
      ensures session.data == old(session.data)
      ensures !canvasMounted ==>
        attachedContainers == old(attachedContainers) && captures == old(captures) &&
        downloads == old(downloads) && alerts == old(alerts) && busyTrace == old(busyTrace) &&
        session.downloading == old(session.downloading)
      ensures canvasMounted ==>
        busyTrace == old(busyTrace) + [true, false] && !session.downloading &&
        captures == old(captures) + [CAPTURE_OPTIONS] &&
        attachedContainers == old(attachedContainers) + (if outcome == CaptureThrows then 1 else 0) &&
        alerts == old(alerts) + (if outcome == Captured then 0 else 1) &&
        downloads == old(downloads) + (if outcome == Captured then [DownloadFileName(session.data.meta.title)] else [])
    {
      if !canvasMounted {
        return;
      }
      session.downloading := true;
      busyTrace := busyTrace + [true];
      attachedContainers := attachedContainers + 1;
      captures := captures + [CAPTURE_OPTIONS];
      if outcome == CaptureThrows {
        alerts := alerts + 1;
      } else {
        attachedContainers := attachedContainers - 1;
        if outcome == EncodeThrows {
          alerts := alerts + 1;
        } else {
          downloads := downloads + [DownloadFileName(session.data.meta.title)];
        }
      }
      session.downloading := false;
      busyTrace := busyTrace + [false];
    }
  }

  /** Two downloads in a row, the first failing in the rasteriser and the second
      succeeding, leave one container behind and the busy flag down. */
  method FailedThenSucceeded(p: Page) returns (left: nat, busy: bool)
    requires p.canvasMounted && p.attachedContainers == 0
    modifies p, p.session
    ensures left == 1 && !busy
  {
    p.HandleDownload(CaptureThrows);
    p.HandleDownload(Captured);
    left := p.attachedContainers;
    busy := p.session.downloading;
  }
}
