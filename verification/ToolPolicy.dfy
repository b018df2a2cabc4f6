/**
 * What an upgrade makes of the operator's access settings of a computer: the tools it may use, the
 * control protocol and the browser. Models packages/cli/src/upgrade.ts and, for the tools a contract
 * offers, packages/core/src/presets.ts.
 */
module ToolPolicy {
  import opened Wrappers

  datatype Access = Access(controlProtocol: Option<nat>, maxTabs: Option<nat>, toolPolicy: Option<seq<string>>)

  const CONTROL_PROTOCOL_VERSION := 12
  const DEFAULT_TABS := 24

  const BASE_TOOLS := [
    "get_computer_status", "explain_capability", "acquire_lease", "renew_lease", "release_lease",
    "exec_command", "list_managed_processes", "process_output", "save_process_output", "terminal_open",
    "terminal_list", "terminal_read", "terminal_write", "terminal_resize", "terminal_signal", "terminal_close",
    "write_stdin", "stop_process", "list_ports", "publish_port", "list_previews", "unpublish_port",
    "share_preview", "revoke_preview_share", "broker_request", "skills_list", "skill_view", "skill_manage",
    "web_search", "web_extract", "list_files", "get_file_info", "read_file", "write_file", "edit_file",
    "copy_path", "move_path", "delete_path"
  ]

  const DESKTOP_TOOLS := [
    "take_screenshot", "control_computer", "list_desktop_windows", "desktop_snapshot", "desktop_element_action",
    "desktop_window_action"
  ]

  const BROWSER_TOOLS := [
    "browser_navigate", "browser_snapshot", "browser_read", "browser_screenshot", "browser_click",
    "browser_type", "browser_select", "browser_press", "browser_scroll", "browser_history", "browser_wait",
    "browser_tabs", "browser_use_tab", "browser_new_tab", "browser_close_tab", "browser_reset",
    "browser_upload", "browser_downloads", "browser_cancel_download", "browser_dialogs",
    "browser_respond_dialog", "browser_permissions", "browser_diagnostics", "browser_set_viewport",
    "browser_click_at", "browser_double_click_at", "browser_hover_at", "browser_drag", "browser_scroll_at",
    "browser_type_focused", "browser_inspect_at", "browser_computer"
  ]

  const CLIPBOARD_TOOLS := ["read_clipboard", "write_clipboard"]

  const APPLICATION_TOOLS := ["open_desktop_application", "list_desktop_applications", "close_desktop_application"]

  const REQUIRED_TOOLS := {"get_computer_status", "acquire_lease", "renew_lease", "release_lease"}

  /** toolsForCapabilities */
  function ToolsOf(capabilities: seq<string>): seq<string> {
    BASE_TOOLS
    + (if "desktop" in capabilities then DESKTOP_TOOLS else [])
    + (if "browser" in capabilities then BROWSER_TOOLS else [])
    + (if "desktop" in capabilities then CLIPBOARD_TOOLS else [])
    + (if "desktop-apps" in capabilities then APPLICATION_TOOLS else [])
  }

  /** The offered tools that are allowed, in the order in which they are offered. */
  function AllowedOf(offered: seq<string>, allowed: seq<string>): seq<string> {
    if offered == [] then []
    else (if offered[0] in allowed then [offered[0]] else []) + AllowedOf(offered[1..], allowed)
  }

  /** The part of upgradedComputer that is not the contract. */
  function UpgradedAccess(access: Access, capabilities: seq<string>): Access {
    var offered := ToolsOf(capabilities);
    Access(Some(CONTROL_PROTOCOL_VERSION), Some(if access.maxTabs.Some? then access.maxTabs.value else DEFAULT_TABS),
           Some(AllowedOf(offered, if access.toolPolicy.Some? then access.toolPolicy.value else offered)))
  }

  predicate Allows(access: Access, tool: string) {
    access.toolPolicy.Some? ==> tool in access.toolPolicy.value
  }

  /** What an operator's policy must keep to be accepted. */
  predicate KeepsRequired(access: Access) {
    forall tool :: tool in REQUIRED_TOOLS ==> Allows(access, tool)
  }

  lemma {:induction false} AllowedAre(offered: seq<string>, allowed: seq<string>, tool: string)
    ensures tool in AllowedOf(offered, allowed) <==> tool in offered && tool in allowed
  {
    if offered != [] {
      AllowedAre(offered[1..], allowed, tool);
      assert offered == [offered[0]] + offered[1..];
    }
  }

  /** Exactly the offered tools that were allowed before, this control protocol, and the browser as it was. */
  ghost predicate Narrowed(access: Access, capabilities: seq<string>, after: Access) {
    && after.toolPolicy.Some?
    && (forall tool :: Allows(after, tool) <==> tool in ToolsOf(capabilities) && Allows(access, tool))
    && after.controlProtocol == Some(CONTROL_PROTOCOL_VERSION)
    && after.maxTabs.Some? && (access.maxTabs.Some? ==> after.maxTabs == access.maxTabs)
  }

  lemma UpgradeNarrows(access: Access, capabilities: seq<string>)
    ensures Narrowed(access, capabilities, UpgradedAccess(access, capabilities))
  {
    hide ToolsOf;
    var offered := ToolsOf(capabilities);
    forall tool
      ensures Allows(UpgradedAccess(access, capabilities), tool) <==> tool in offered && Allows(access, tool)
    {
      AllowedAre(offered, if access.toolPolicy.Some? then access.toolPolicy.value else offered, tool);
    }
  }

  lemma RequiredOffered(capabilities: seq<string>)
    ensures forall tool :: tool in REQUIRED_TOOLS ==> tool in ToolsOf(capabilities)
  {
    assert BASE_TOOLS[0] == "get_computer_status" && BASE_TOOLS[2] == "acquire_lease";
    assert BASE_TOOLS[3] == "renew_lease" && BASE_TOOLS[4] == "release_lease";
    assert forall tool :: tool in BASE_TOOLS ==> tool in ToolsOf(capabilities);
  }

  /** So the policy that is written back is accepted if the one that was read is. */
  lemma UpgradeKeepsRequired(access: Access, capabilities: seq<string>)
    requires KeepsRequired(access)
    ensures KeepsRequired(UpgradedAccess(access, capabilities))
  {
    UpgradeNarrows(access, capabilities);
    RequiredOffered(capabilities);
    hide ToolsOf, UpgradedAccess;
  }

  /** Upgrades to one contract after another. */
  function UpgradedOver(access: Access, contracts: seq<seq<string>>): Access {
    if contracts == [] then access
    else UpgradedAccess(UpgradedOver(access, contracts[..|contracts| - 1]), contracts[|contracts| - 1])
  }

  predicate AlwaysOffered(contracts: seq<seq<string>>, tool: string) {
    forall capabilities :: capabilities in contracts ==> tool in ToolsOf(capabilities)
  }

  /**
   * Over any upgrades a tool is allowed exactly if it was at the start and every contract on the way
   * offered it: a tool once lost does not come back by itself.
   */
  lemma {:induction false} UpgradesOnlyNarrow(access: Access, contracts: seq<seq<string>>, tool: string)
    ensures Allows(UpgradedOver(access, contracts), tool) <==> Allows(access, tool) && AlwaysOffered(contracts, tool)
  {
    hide ToolsOf, UpgradedAccess;
    if contracts != [] {
      var last := |contracts| - 1;
      UpgradesOnlyNarrow(access, contracts[..last], tool);
      UpgradeNarrows(UpgradedOver(access, contracts[..last]), contracts[last]);
      assert contracts == contracts[..last] + [contracts[last]];
    }
  }
}
