/** The app's data model: HSK levels, material categories, quiz modes,
    score records, quiz questions and the user profile. */
module Types {

  datatype Option<+T> = None | Some(value: T)

  /** An HSK proficiency level, 1 (beginner) to 4 (upper intermediate). */
  type HSKLevel = x: int | 1 <= x <= 4 witness 1

  /** The four lesson categories (Mendengar, Membaca, Menulis, Percakapan). */
  datatype MaterialType = Listening | Reading | Writing | Conversation

  /** Practice mode (Latihan) or simulated exam (Simulasi). */
  datatype QuizMode = Latihan | Simulasi

  /** One finished quiz. The source's `type` field is called `mode` here. */
  datatype ScoreRecord = ScoreRecord(
    id: string,
    level: HSKLevel,
    mode: QuizMode,
    score: nat,
    total: nat,
    timestamp: int)

  /** A multiple-choice question; `correctAnswer` is meant to index `options`,
      but nothing in the app enforces that. */
  datatype QuizQuestion = QuizQuestion(
    id: string,
    question: string,
    options: seq<string>,
    correctAnswer: int,
    explanation: string,
    pinyin: Option<string>,
    translation: Option<string>)

  /** A user profile; `scores` is kept most recent first. */
  datatype User = User(id: string, name: string, email: string, scores: seq<ScoreRecord>)
}
