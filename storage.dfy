/**
 * The persisted store that the session layer reads and clears.  Its real
 * implementation (serialisation, the storage backend, error handling) is not
 * part of this model: a store is two optional slots, and a load returns what
 * the slot holds, an unreadable record reading as absent.
 */
module Storage {
  import opened Types

  /** The "current game state" record; apart from its language its shape is
    * owned by the game engine and kept opaque here. */
  datatype SavedGame = SavedGame(language: Language, payload: seq<int>)

  /** The "game progress" record: per-level history, opaque to this layer. */
  datatype GameProgress = GameProgress(history: seq<int>)

  class Store {
    var currentGame: Option<SavedGame>
    var progress: Option<GameProgress>

    constructor (currentGame: Option<SavedGame>, progress: Option<GameProgress>)
      ensures this.currentGame == currentGame && this.progress == progress
    {
      this.currentGame := currentGame;
      this.progress := progress;
    }

    /** `loadCurrentGameState()`: whatever the current-game slot holds. */
    method LoadCurrentGameState() returns (r: Option<SavedGame>)
      ensures r == currentGame
    {
      r := currentGame;
    }

    /** `loadGameProgress()`: whatever the progress slot holds. */
    method LoadGameProgress() returns (r: Option<GameProgress>)
      ensures r == progress
    {
      r := progress;
    }

    /** `clearCurrentGameState()`: empties the current-game slot only. */
    method ClearCurrentGameState()
      modifies this
      ensures currentGame == None && progress == old(progress)
    {
      currentGame := None;
    }

    /** `clearGameProgress()`: empties the progress slot only. */
    method ClearGameProgress()
      modifies this
      ensures progress == None && currentGame == old(currentGame)
    {
      progress := None;
    }
  }
}
