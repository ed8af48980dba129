/** Notifications the typing engine sends to the popup with `chrome.runtime.sendMessage`. */
module Messages {

  datatype Message =
    | Progress(currentIndex: nat, wordsTyped: nat)  // TYPING_PROGRESS (its `progress` fraction is left out)
    | Paused(currentIndex: nat)                     // TYPING_PAUSED
    | Resumed(currentIndex: nat)                    // TYPING_RESUMED
    | Complete                                      // TYPING_COMPLETE
    | Stopped                                       // TYPING_STOPPED
}
