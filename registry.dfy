/**
 * The panel registry: the fixed, partial map from a tool's display name to
 * the panel that renders it, and the list of tool names the Tools menu
 * advertises.
 */
module Registry {

  import opened Wrappers

  /** The panels that have a real implementation. */
  datatype Panel =
    | Terminal
    | ServerManagerWindow
    | PerformanceMonitor
    | ResourceMonitor
    | Services
    | EventViewer
    | DiskCleanup
    | DefragmentAndOptimizeDrives

  /** The name under which each panel is registered. */
  function PanelName(p: Panel): string
  {
    match p
    case Terminal => "Command Prompt"
    case ServerManagerWindow => "Server Manager"
    case PerformanceMonitor => "Performance Monitor"
    case ResourceMonitor => "Resource Monitor"
    case Services => "Services"
    case EventViewer => "Event Viewer"
    case DiskCleanup => "Disk Cleanup"
    case DefragmentAndOptimizeDrives => "Defragment and Optimize Drives"
  }

  /** The name of the one tool that opens near-fullscreen from the desktop icon. */
  const ServerManager: string := "Server Manager"

  /** The tool names listed by the Tools menu, in menu order. */
  const ToolsList: seq<string> := [
    "Command Prompt",
    "Component Services",
    "Computer Management",
    "Defragment and Optimize Drives",
    "Disk Cleanup",
    "DNS",
    "Event Viewer",
    "File Explorer",
    "Group Policy Management",
    "iSCSI Initiator",
    "Local Security Policy",
    "Performance Monitor",
    "Print Management",
    "Resource Monitor",
    "Services",
    "System Configuration",
    "System Information",
    "Task Scheduler",
    "Windows Memory Diagnostic"
  ]

  /** Looks a tool name up; `None` is the "tool is not available" notice. */
  function Resolve(name: string): (r: Option<Panel>)
    ensures r.Some? ==> PanelName(r.value) == name
  {
    if name == "Command Prompt" then Some(Terminal)
    else if name == "Server Manager" then Some(ServerManagerWindow)
    else if name == "Performance Monitor" then Some(PerformanceMonitor)
    else if name == "Resource Monitor" then Some(ResourceMonitor)
    else if name == "Services" then Some(Services)
    else if name == "Event Viewer" then Some(EventViewer)
    else if name == "Disk Cleanup" then Some(DiskCleanup)
    else if name == "Defragment and Optimize Drives" then Some(DefragmentAndOptimizeDrives)
    else None
  }

  /** Every panel is reachable under its registered name, and only under it. */
  lemma ResolvePanelName(p: Panel, name: string)
    ensures Resolve(PanelName(p)) == Some(p)
    ensures Resolve(name) == Some(p) <==> name == PanelName(p)
  {
  }

  /** Positions in the Tools menu of the seven tools that have a panel. */
  const AvailableInMenu: set<nat> := {0, 3, 4, 6, 11, 13, 14}

  lemma AvailableCount()
    ensures |AvailableInMenu| == 7
  {
    assert AvailableInMenu == {0} + {3} + {4} + {6} + {11} + {13} + {14};
  }

  lemma MenuHead(k: nat)
    requires k < 6
    ensures Resolve(ToolsList[k]).Some? <==> k in AvailableInMenu
  {
    if k < 3 && k != 0 {
      assert ToolsList[k][2] == 'm' && |ToolsList[k]| != 14;
    }
  }

  lemma MenuMiddle(k: nat)
    requires 6 <= k < 12
    ensures Resolve(ToolsList[k]).Some? <==> k in AvailableInMenu
  {
    if k != 6 && k != 11 {
      assert ToolsList[k][0] != 'C' && ToolsList[k][0] != 'D' && ToolsList[k][0] != 'S' && ToolsList[k][0] != 'P';
    }
  }

  lemma MenuTail(k: nat)
    requires 12 <= k < 19
    ensures Resolve(ToolsList[k]).Some? <==> k in AvailableInMenu
  {
    if k != 13 && k != 14 {
      assert ToolsList[k][0] != 'C' && ToolsList[k][0] != 'D' && ToolsList[k][0] != 'E' && ToolsList[k][0] != 'R';
    }
  }

  /**
   * Of the nineteen advertised tools exactly the seven at the positions in
   * AvailableInMenu open a panel; every other menu entry gets the notice.
   */
  lemma MenuCoverage(k: nat)
    requires k < |ToolsList|
    ensures |ToolsList| == 19 && |AvailableInMenu| == 7
    ensures Resolve(ToolsList[k]).Some? <==> k in AvailableInMenu
  {
    AvailableCount();
    if k < 6 {
      MenuHead(k);
    } else if k < 12 {
      MenuMiddle(k);
    } else {
      MenuTail(k);
    }
  }

  /** The Server Manager is registered but is not on the Tools menu. */
  lemma ServerManagerOffMenu()
    ensures Resolve(ServerManager) == Some(ServerManagerWindow)
    ensures ServerManager !in ToolsList
  {
    forall k | 0 <= k < |ToolsList|
      ensures ToolsList[k] != ServerManager
    {
      assert ToolsList[k][0] != 'S' || ToolsList[k][1] != 'e' || |ToolsList[k]| != 14;
    }
  }
}
